# VoltDB planner rules, plan lowering and export sink — a Dafny model

This project models four parts of VoltDB and proves properties about each one.

- **Aggregate planning.**
  - `AggregateLowering` models how a physical aggregate is lowered to an `AggregatePlanNode`.
    - Aggregate outputs are numbered from the group count upward.
    - A `COUNT` with no argument becomes `COUNT(*)`.
    - An unsupported aggregate kind is rejected.
    - There is one GROUP BY expression per group-set bit, in ascending order.
    - HAVING is attached only when present.
  - `AggregateRule` models the rule that offers a hash aggregate and then a serial aggregate for every logical aggregate. The serial aggregate requires the group-by collation.
- **Operator copies and inlining.**
  - `SeqTableScans` models `VoltSeqTableScan` and its copy-with operations.
  - `NestLoopJoins` models `VoltPhysicalNestLoopJoin`: its two copies and its lowering to a `NestLoopPlanNode`.
  - `AggregateScanMerge` models the rule that inlines an aggregate into the physical scan beneath it.
- **Calc/join transpose.** `CalcJoinTranspose` models the decline cascade of `VoltLCalcJoinTransposeRule` and the shape of what it proposes. Calcite's `PushProjector` is passed in as opaque operations.
- **Export data sink.**
  - `ExportRows` models the little-endian payload format and its row walk.
  - `ExportSink` states what each sink operation does to the sink's state.
  - `ExportDataSinks.ExportDataSink` is the object itself. Its fields are updated in place, and each method is proved equal to the matching `ExportSink` function.
- **Engine type codes.** `VoltTypes` covers the `ValueType`, `JoinType` and `ExpressionType` code tables and the `TableStreamType` predicates.

Shared modules:
- `Wrappers` holds `Option` and `Result`.
- `Bits` models an `ImmutableBitSet` as a `seq<bool>`, together with `nextSetBit`.
- `Rel` holds the operator records.
- `PlanNodes` holds the executable plan nodes, as classes with setters.

**How the code maps to Dafny.**
- Java `assert`s become `requires`.
- Exceptions become `Result` or `Option` failures. This includes the `IndexOutOfBoundsException` of an aggregate argument outside the input row.
- A failure in the export sink keeps whatever the operation had already changed, as the Java does when it throws.

## Model

| member | source | states |
|---|---|---|
| AggregateLowering.LowerCall | src/frontend/org/voltdb/calciteadapter/rel/physical/AbstractVoltDBPAggregate.java:161-172 | lowering one call succeeds exactly when its kind has an executable type and its argument, if any, is a field of the input row |
| AggregateLowering.LowerCallMeaning | src/frontend/org/voltdb/calciteadapter/rel/physical/AbstractVoltDBPAggregate.java:161-176 | covers all cases: an unsupported kind is reported by its name; a mapped kind whose argument is outside the input row fails with that argument's index; the entry keeps its output index and DISTINCT; a one-argument call reads input field `args[0]`; a zero-argument call has no expression; a zero-argument COUNT becomes COUNT_STAR and every other kind keeps its mapped type |
| AggregateLowering.LowerCalls | src/frontend/org/voltdb/calciteadapter/rel/physical/AbstractVoltDBPAggregate.java:157-182 | succeeds iff every call's kind is mapped and its argument is inside the input row; on success, one entry per call, and the i-th is call i lowered at output index `firstIndex + i` |
| AggregateLowering.LowerCallsStep | src/frontend/org/voltdb/calciteadapter/rel/physical/AbstractVoltDBPAggregate.java:159-181 | one more successful call extends the lowered prefix by exactly that call's entry |
| AggregateLowering.LowerCallsSnoc | src/frontend/org/voltdb/calciteadapter/rel/physical/AbstractVoltDBPAggregate.java:159-181 | lowering a prefix one call longer is lowering the prefix, then that call |
| AggregateLowering.LowerCallsFirstError | src/frontend/org/voltdb/calciteadapter/rel/physical/AbstractVoltDBPAggregate.java:159-172 | the error reported is the first failing call's, in call order: its kind's name when the kind is unmapped, otherwise its out-of-range argument index |
| AggregateLowering.OutputIndicesFollowGroupFields | src/frontend/org/voltdb/calciteadapter/rel/physical/AbstractVoltDBPAggregate.java:157-181 | the k-th aggregate entry is at output field `groupCount + k`; the indices strictly increase and stay inside the aggregate's row |
| AggregateLowering.FieldExprs | src/frontend/org/voltdb/calciteadapter/rel/physical/AbstractVoltDBPAggregate.java:194-197 | one expression per index |
| AggregateLowering.FieldExprsAt | src/frontend/org/voltdb/calciteadapter/rel/physical/AbstractVoltDBPAggregate.java:196 | the k-th expression is the row field at the k-th index |
| AggregateLowering.GroupByOnePerMember | src/frontend/org/voltdb/calciteadapter/rel/physical/AbstractVoltDBPAggregate.java:191-199 | exactly one GROUP BY expression per group-set member; they are in strictly ascending field order, and every member appears |
| AggregateLowering.ComputeDigest | src/frontend/org/voltdb/calciteadapter/rel/physical/AbstractVoltDBPAggregate.java:76-83 | the digest extends the inherited one, by the HAVING text when there is a HAVING predicate and by nothing otherwise |
| AggregateLowering.SetGroupByExpressions | src/frontend/org/voltdb/calciteadapter/rel/physical/AbstractVoltDBPAggregate.java:191-199 | the nextSetBit loop appends exactly the group-by expressions |
| AggregateLowering.SetPostPredicate | src/frontend/org/voltdb/calciteadapter/rel/physical/AbstractVoltDBPAggregate.java:201-206 | the node gets the converted HAVING predicate iff there is one; otherwise its predicate is untouched |
| AggregateLowering.AddAggregates | src/frontend/org/voltdb/calciteadapter/rel/physical/AbstractVoltDBPAggregate.java:157-182 | the call loop appends exactly the lowered calls, or stops with the first failing call's error |
| AggregateLowering.ToPlanNodeForInput | src/frontend/org/voltdb/calciteadapter/rel/physical/AbstractVoltDBPAggregate.java:144-189 | a fresh node with the output schema, the lowered calls, the GROUP BY expressions and the HAVING predicate, and no child; otherwise the first failing call's error (unsupported kind or argument index out of range) |
| AggregateLowering.ToPlanNode | src/frontend/org/voltdb/calciteadapter/rel/physical/AbstractVoltDBPAggregate.java:127-136 | as toPlanNode(inputRowType) over the input's row type, with the lowered input as its only child |
| AggregateRule.AscendingOn | src/frontend/org/voltdb/calciteadapter/rules/physical/VoltDBPAggregateRule.java:95 | one collation field per index |
| AggregateRule.AscendingOnAt | src/frontend/org/voltdb/calciteadapter/rules/physical/VoltDBPAggregateRule.java:95 | the k-th collation field is the k-th index, ascending |
| AggregateRule.GroupByCollationMeaning | src/frontend/org/voltdb/calciteadapter/rules/physical/VoltDBPAggregateRule.java:86-99 | the collation's field set is the group set; its length is the cardinality; fields are strictly ascending and all ascending; an empty group set gives an empty collation |
| AggregateRule.BuildGroupByCollation | src/frontend/org/voltdb/calciteadapter/rules/physical/VoltDBPAggregateRule.java:86-99 | the nextSetBit loop builds exactly the group-by collation, and every field index is below the row's field count |
| AggregateRule.OnMatch | src/frontend/org/voltdb/calciteadapter/rules/physical/VoltDBPAggregateRule.java:47-84 | proposes exactly two alternatives: the hash aggregate, then the serial aggregate over the group-by collation |
| AggregateRule.AlternativesEquivalent | src/frontend/org/voltdb/calciteadapter/rules/physical/VoltDBPAggregateRule.java:50-82 | both alternatives are physical, with the same indicator, group set(s), calls and row type, no HAVING, and the input requested physical; the hash one keeps the collations; the serial one and its input carry exactly the group-by collation |
| AggregateRule.RuleCall.TransformTo | src/frontend/org/voltdb/calciteadapter/rules/physical/VoltDBPAggregateRule.java:64 | registers exactly one more alternative, at the end |
| SeqTableScans.NewSeqTableScan | src/frontend/org/voltdb/plannerv2/rel/physical/VoltSeqTableScan.java:69-86 | rejected unless the traits are in the physical convention; otherwise an identity program over the table's row type, with no OFFSET, LIMIT, aggregate or pre-aggregate fields |
| SeqTableScans.CopyWithLimitOffset | src/frontend/org/voltdb/plannerv2/rel/physical/VoltSeqTableScan.java:101-116 | only traits, OFFSET and LIMIT change |
| SeqTableScans.CopyWithProgram | src/frontend/org/voltdb/plannerv2/rel/physical/VoltSeqTableScan.java:118-139 | the program becomes the new one merged over the old one, and the row type is the new program's output; all else but the traits is kept |
| SeqTableScans.CopyWithAggregate | src/frontend/org/voltdb/plannerv2/rel/physical/VoltSeqTableScan.java:141-162 | the visible row type is the aggregate's; the old row type and program become the pre-aggregate ones; the aggregate is recorded; table, OFFSET, LIMIT and split count are kept |
| SeqTableScans.PreAggregateConsistentPreserved | src/frontend/org/voltdb/plannerv2/rel/physical/VoltSeqTableScan.java:69-162 | every constructor and copy leaves the pre-aggregate fields consistent with each other |
| SeqTableScans.CopyWithLimitOffsetLastWins | src/frontend/org/voltdb/plannerv2/rel/physical/VoltSeqTableScan.java:101-116 | replacing LIMIT/OFFSET keeps the row type; the last replacement wins; restoring the old values restores the scan |
| SeqTableScans.ProgramAndLimitOffsetCommute | src/frontend/org/voltdb/plannerv2/rel/physical/VoltSeqTableScan.java:101-139 | merging a program and replacing LIMIT/OFFSET commute |
| SeqTableScans.CopyWithProgramStacks | src/frontend/org/voltdb/plannerv2/rel/physical/VoltSeqTableScan.java:118-139 | successive programs stack, the newest outermost, and the newest decides the row type |
| SeqTableScans.CopyWithAggregateRestorable | src/frontend/org/voltdb/plannerv2/rel/physical/VoltSeqTableScan.java:141-162 | inlining loses nothing: taking the aggregate out again gives back the original scan |
| AggregateScanMerge.Match | src/frontend/org/voltdb/calciteadapter/rules/inlining/VoltDBPAggregateScanMergeRule.java:30-33 | matches exactly a physical aggregate directly over a physical table scan, and binds those two |
| AggregateScanMerge.Proposals | src/frontend/org/voltdb/calciteadapter/rules/inlining/VoltDBPAggregateScanMergeRule.java:35-42 | at most one proposal per node |
| AggregateScanMerge.ProposalsExactlyOnPattern | src/frontend/org/voltdb/calciteadapter/rules/inlining/VoltDBPAggregateScanMergeRule.java:35-42 | exactly one proposal iff the pattern matches; it is the scan's copyWithAggregate under the scan's own traits, with the matched aggregate inlined |
| AggregateScanMerge.ProposalEquivalent | src/frontend/org/voltdb/calciteadapter/rules/inlining/VoltDBPAggregateScanMergeRule.java:40 | for a copy that exposes the inlined aggregate's row type, the proposal has the matched aggregate's row type and the scan's traits |
| NestLoopJoins.NewNestLoopJoin | src/frontend/org/voltdb/plannerv2/rel/physical/VoltPhysicalNestLoopJoin.java:38-45 | the join takes every constructor argument (traits, inputs, condition, variables, join type, semiJoinDone, system fields, split count) and has no OFFSET or LIMIT |
| NestLoopJoins.Copy | src/frontend/org/voltdb/plannerv2/rel/physical/VoltPhysicalNestLoopJoin.java:57-65 | takes the given traits, condition, inputs, join type and semiJoinDone; keeps the correlation variables, system fields and split count; has no OFFSET or LIMIT |
| NestLoopJoins.CopyWithLimitOffset | src/frontend/org/voltdb/plannerv2/rel/physical/VoltPhysicalNestLoopJoin.java:67-73 | only traits, OFFSET and LIMIT change |
| NestLoopJoins.CopyIsIdentityIffNoLimitOffset | src/frontend/org/voltdb/plannerv2/rel/physical/VoltPhysicalNestLoopJoin.java:42-45 | copying a join onto its own fields gives it back iff it has no OFFSET and LIMIT |
| NestLoopJoins.CopyForgetsLimitOffset | src/frontend/org/voltdb/plannerv2/rel/physical/VoltPhysicalNestLoopJoin.java:57-73 | copy discards whatever copyWithLimitOffset set |
| NestLoopJoins.CopyWithLimitOffsetLastWins | src/frontend/org/voltdb/plannerv2/rel/physical/VoltPhysicalNestLoopJoin.java:67-73 | the row type is kept; the last setting wins; restoring the old values restores the join |
| NestLoopJoins.ToPlanNode | src/frontend/org/voltdb/plannerv2/rel/physical/VoltPhysicalNestLoopJoin.java:75-98 | for an INNER join: a fresh node of join type INNER; its children are the lowered left input and then the right; the predicate is converted with the left field count; OFFSET/LIMIT are inlined and the join's row type is the schema; without system fields, that left field count is where the right input's fields start in the schema |
| CalcJoinTranspose.CalcOfProject | src/frontend/org/voltdb/plannerv2/rules/logical/VoltLCalcJoinTransposeRule.java:160-169 | the calc reads the project's input in the logical convention, keeps the project's other traits and row type, and carries the given isTopJoin |
| CalcJoinTranspose.ProjectToVoltCalc | src/frontend/org/voltdb/plannerv2/rules/logical/VoltLCalcJoinTransposeRule.java:160-169 | succeeds iff the node is a project, and fails with "not a Project" otherwise |
| CalcJoinTranspose.NewJoin | src/frontend/org/voltdb/plannerv2/rules/logical/VoltLCalcJoinTransposeRule.java:121-139 | the rebuilt join keeps traits, join type and semiJoinDone, with the two narrowed calcs (isTopJoin false) as children; it has a condition iff the original had one |
| CalcJoinTranspose.OnMatch | src/frontend/org/voltdb/plannerv2/rules/logical/VoltLCalcJoinTransposeRule.java:81-150 | declines iff the join is not a plain inner join, or the calc has a filter, or every field is referenced; fails iff it does not decline and a narrowed input is not a project; otherwise proposes exactly one node |
| CalcJoinTranspose.OnMatchResultShape | src/frontend/org/voltdb/plannerv2/rules/logical/VoltLCalcJoinTransposeRule.java:112-149 | when it fires, both narrowed inputs were projects; a top project from createNewProject is proposed as exactly the calc projectToVoltCalc(top, true) builds, a logical isTopJoin calc over the project's input with its row type; any other result (the bare join) is proposed unwrapped |
| ExportRows.LeInt32 | src/frontend/org/voltdb/exportclient/ExportDataSink.java:122-132 | the little-endian decode of four bytes is a 32-bit signed value |
| ExportRows.LeBytes | src/frontend/org/voltdb/exportclient/ExportDataSink.java:144-145 | an int is encoded in four bytes |
| ExportRows.LeInt32OfLeBytes | src/frontend/org/voltdb/exportclient/ExportDataSink.java:144-145 | decoding an encoded int gives it back |
| ExportRows.LeBytesOfLeInt32 | src/frontend/org/voltdb/exportclient/ExportDataSink.java:144-145 | encoding a decoded int gives back the four bytes |
| ExportRows.EncodeRows | src/frontend/org/voltdb/exportclient/ExportDataSink.java:144-149 | the encoding is at least four bytes per row |
| ExportRows.EncodeRowsLength | src/frontend/org/voltdb/exportclient/ExportDataSink.java:144-149 | the encoding is exactly four length bytes per row plus the rows' bytes |
| ExportRows.ReadRowsConsEncodes | src/frontend/org/voltdb/exportclient/ExportDataSink.java:144-148 | one step of the walk re-encodes: a usable length, that many row bytes, and an encoded rest make the encoding of all the rows read |
| ExportRows.ReadRowsOfEncodeRows | src/frontend/org/voltdb/exportclient/ExportDataSink.java:144-149 | walking the encoding of some rows reads back exactly those rows, in order, with no failure |
| ExportRows.ReadRowsSucceedsOnlyOnEncodings | src/frontend/org/voltdb/exportclient/ExportDataSink.java:144-149 | a walk that completes had the encoding of the rows it read |
| ExportSink.RowEvents | src/frontend/org/voltdb/exportclient/ExportDataSink.java:148 | one processRow(length, bytes) per row, in order |
| ExportSink.RowEventsSnoc | src/frontend/org/voltdb/exportclient/ExportDataSink.java:144-149 | reading one more row adds exactly one processRow call |
| ExportSink.DistinctTail | src/frontend/org/voltdb/exportclient/ExportDataSink.java:80-81 | a key order without repeats stays so after its first key, which does not recur |
| ExportSink.AddConnectionEffect | src/frontend/org/voltdb/exportclient/ExportDataSink.java:59-65 | the first connection becomes active, and later ones leave the active connection alone; the name gets fresh, empty queues; the other queues are unchanged; validity is kept |
| ExportSink.PollEffect | src/frontend/org/voltdb/exportclient/ExportDataSink.java:90-97 | fails (changing nothing) iff there is no active connection with a transmit queue; otherwise appends one poll message to that queue and changes nothing else |
| ExportSink.PollAndAckFanOut | src/frontend/org/voltdb/exportclient/ExportDataSink.java:99-118 | exactly one message is appended to every transmit queue, all with the same ack offset; it polls iff its queue is the active connection's |
| ExportSink.HandleEmptyBlock | src/frontend/org/voltdb/exportclient/ExportDataSink.java:125-141 | an empty payload or a zero block length gives noDataReceived(ackOffset) and then a poll, with no rows |
| ExportSink.HandleEncodedBlock | src/frontend/org/voltdb/exportclient/ExportDataSink.java:120-159 | a non-zero block length followed by encoded rows gives exactly those rows to the decoder, then block completion, then pollAndAck with the response's offset |
| ExportSink.HandlePollResponseAppends | src/frontend/org/voltdb/exportclient/ExportDataSink.java:120-159 | handling a response only appends, to transmit queues and decoder events, and leaves receive queues, active connection and started flag alone |
| ExportSink.WorkLoopLeavesOthers | src/frontend/org/voltdb/exportclient/ExportDataSink.java:80-87 | the receive loop never touches the queue of a connection it does not visit |
| ExportSink.WorkLoopEffect | src/frontend/org/voltdb/exportclient/ExportDataSink.java:80-87 | over distinct connections, each receive queue loses at most its head; connections are kept; transmit queues and events only grow |
| ExportSink.WorkLoopDropsOther | src/frontend/org/voltdb/exportclient/ExportDataSink.java:80-86 | a head message that is not a poll response is only taken off its queue: nothing is sent, the decoder is not called, the active connection stays |
| ExportSink.WorkLoopWithoutResponses | src/frontend/org/voltdb/exportclient/ExportDataSink.java:80-87 | when no visited head is a poll response, the loop succeeds and only removes each visited non-empty queue's head; every other field is unchanged |
| ExportSink.WorkLoopTakesEachHead | src/frontend/org/voltdb/exportclient/ExportDataSink.java:80-87 | a loop over distinct connections that ends without an exception has taken the head off every visited non-empty queue |
| ExportSink.WorkTakesEachHead | src/frontend/org/voltdb/exportclient/ExportDataSink.java:75-88 | a work call over a HashMap order that ends without an exception takes exactly the head off every non-empty receive queue and leaves empty ones empty |
| ExportSink.WorkTakesAtMostOneHead | src/frontend/org/voltdb/exportclient/ExportDataSink.java:75-88 | one work call takes at most one head off each receive queue, only appends elsewhere, and ends started unless its initial poll failed |
| ExportSink.PrefixTransitive | src/frontend/org/voltdb/exportclient/ExportDataSink.java:80-87 | appending in two steps is appending |
| ExportSink.WorkLoopActive | src/frontend/org/voltdb/exportclient/ExportDataSink.java:80-87 | afterwards the active connection is the old one, or a visited connection whose head was a poll response |
| ExportSink.WorkPollsAfterClose | src/frontend/org/voltdb/exportclient/ExportDataSink.java:75-163 | a started sink does not poll first; after connectionClosed the next work polls the active connection successfully, then receives |
| ExportSink.OperationsKeepValid | src/frontend/org/voltdb/exportclient/ExportDataSink.java:90-163 | poll, pollAndAck, handlePollResponse and connectionClosed keep both queue maps on the same connections, with the active one among them |
| ExportSink.WorkLoopKeepsValid | src/frontend/org/voltdb/exportclient/ExportDataSink.java:80-87 | the receive loop keeps the sink valid |
| ExportSink.WorkKeepsValid | src/frontend/org/voltdb/exportclient/ExportDataSink.java:75-88 | work keeps the sink valid |
| ExportDataSinks.ExportDataSink.constructor | src/frontend/org/voltdb/exportclient/ExportDataSink.java:49-57 | no connections, no active connection, not started |
| ExportDataSinks.ExportDataSink.AddExportConnection | src/frontend/org/voltdb/exportclient/ExportDataSink.java:59-65 | the fields become AddConnection of the old ones |
| ExportDataSinks.ExportDataSink.Poll | src/frontend/org/voltdb/exportclient/ExportDataSink.java:90-97 | the fields and the outcome are Poll of the old fields |
| ExportDataSinks.ExportDataSink.PollAndAck | src/frontend/org/voltdb/exportclient/ExportDataSink.java:99-118 | the key-set loop leaves the fields at PollAndAck of the old ones, whatever order it takes the keys in |
| ExportDataSinks.ExportDataSink.ProcessRows | src/frontend/org/voltdb/exportclient/ExportDataSink.java:143-149 | the buffer loop hands the decoder exactly the rows the walk reads, and fails iff the walk fails, with its exception |
| ExportDataSinks.ExportDataSink.HandlePollResponse | src/frontend/org/voltdb/exportclient/ExportDataSink.java:120-159 | the fields and the outcome are HandlePollResponse of the old fields |
| ExportDataSinks.ExportDataSink.Work | src/frontend/org/voltdb/exportclient/ExportDataSink.java:75-88 | for an iteration order listing each receive queue once, the fields and the outcome are Work of the old fields |
| ExportDataSinks.ExportDataSink.ConnectionClosed | src/frontend/org/voltdb/exportclient/ExportDataSink.java:161-163 | only the started flag changes: it is cleared |
| VoltTypes.ValueTypeFromCode | src/ee/common/types.h:67-87 | a decoded code has that code |
| VoltTypes.ValueTypeCodeRoundTrip | src/ee/common/types.h:67-87 | every ValueType constant decodes back from its code |
| VoltTypes.ValueTypeCodeInjective | src/ee/common/types.h:67-87 | distinct ValueType constants have distinct codes |
| VoltTypes.JoinTypeFromCode | src/ee/common/types.h:126-132 | a decoded code has that code |
| VoltTypes.JoinTypeCodeRoundTrip | src/ee/common/types.h:126-132 | every JoinType constant decodes back from its code |
| VoltTypes.JoinTypeCodeInjective | src/ee/common/types.h:126-132 | distinct JoinType constants have distinct codes |
| VoltTypes.ExpressionTypeFromCode | src/ee/common/types.h:247-321 | a decoded code has that code |
| VoltTypes.ExpressionTypeCodeRoundTrip | src/ee/common/types.h:247-321 | every ExpressionType constant decodes back from its code |
| VoltTypes.ExpressionTypeCodeInjective | src/ee/common/types.h:247-321 | distinct ExpressionType constants have distinct codes |
| VoltTypes.AggregateCodesDistinct | src/ee/common/types.h:297-302 | the six aggregate codes are pairwise distinct, and COUNT_STAR follows COUNT |
| VoltTypes.TableStreamTypeFromCode | src/ee/common/types.h:357-376 | exactly the codes -1..4 decode, each to the constant with that code |
| VoltTypes.TableStreamTypeCodeRoundTrip | src/ee/common/types.h:357-376 | every stream type decodes back from its implicit code |
| VoltTypes.HasPredicates | src/ee/common/types.h:387-391 | true exactly for the stream types declared before ELASTIC_INDEX_CLEAR (codes 0-2) |
| VoltTypes.IsSnapshot | src/ee/common/types.h:396-398 | true exactly for code 0, and it implies has-predicates |
| VoltTypes.IsRecovery | src/ee/common/types.h:403-405 | true exactly for code 4, and RECOVERY has no predicates |
| VoltTypes.IsValid | src/ee/common/types.h:410-412 | false exactly for NONE (code -1) |
| VoltTypes.AppliesToPreTruncateTable | src/ee/common/types.h:414-416 | true exactly for code 1, and it implies has-predicates, valid and not snapshot |
| VoltTypes.PredicatesImplyValid | src/ee/common/types.h:387-416 | a stream type with predicates is valid; NONE satisfies none of the predicates |

## Left out

- `computeSelfCost` of the aggregate and `estimateRowCount` of the scan: they use floating-point cost arithmetic, `Math.pow` and planner metadata that is not part of this model.
- `explainTerms` and all logging: they only format text.
- `VoltDBRules.java`: it only assembles rule lists into planner programs.
- The translators `RexConverter`, `RelConverter` and `ExpressionTypeConverter`:
  - the first two are represented by symbolic expressions (`TupleValue`, `FromRex`, `JoinPredicate`, `NodeSchema`);
  - the third is a parameter (`KindMap`), a partial map from aggregate kind to executable type.
- Calcite internals are records or parameters: `RexProgram` construction and `mergePrograms` (recorded by how the program was made), the host's `convert`, and `PushProjector` with `RexProgram.split` (`ProjectorOps`).
- `AbstractVoltTableScan` and `AbstractVoltDBPTableScan` are not part of this model.
  - A scan's row type is taken to be the output of its program.
  - The merge rule receives `copyWithAggregate` as a parameter.
- `VoltPhysicalJoin.addLimitOffset` and `setOutputSchema` are recorded as plain setters of the OFFSET/LIMIT values and the schema.
- `VoltLogicalJoin.copy` is taken to keep the fields it is not given. Its body is not part of this model.
- Plan-node parent links made by `addAndLinkChild` are not modelled. Only the child list is.
- The ExportDataSink object:
  - `ExportDecoderBase` is represented by the log of calls made on it (`events`).
  - `ExportProtoMessage` is reduced to its flags, ack offset and payload.
  - The constructor's table name and decoder arguments, and the unused `m_active` field, are not modelled.
- `HashMap` iteration order is a parameter of `Work`: any order listing each receive queue once.
  - `pollAndAck`'s result is proved independent of key order.
- Value semantics in the export model:
  - messages are values, so the one `ack` message object Java shares between the non-active queues appears as equal copies;
  - `ByteBuffer`'s switch between little- and big-endian order is not modelled; the walk reads little-endian and consumes the payload as a sequence.
- `types.h`:
  - enums other than `ValueType`, `JoinType`, `ExpressionType` and `TableStreamType` are not modelled;
  - the declared but undefined utility functions (`getTypeName`, `stringToValue`, ...) are not part of this model.
- `setGroupByExpressions` looks up the aggregate's own output row type at the group set's input-field indices.
  - The model does exactly that, which is why `Lowerable` requires every group bit to be below the output field count.
  - `AggregateRule.BuildGroupByCollation` and `AggregateRule.OnMatch` carry the same bound (`AllBelow` over the output row), because buildGroupByCollation asserts each group bit is below the output field count.
  - The field names it yields match the input's only when the GROUP BY columns come first in the input row.
- `CalcJoinTranspose.OnMatch` does not describe the narrowed projections themselves: what `PushProjector` computes is not part of this model.
