/**
 * ExportDataSink: the export client's end of one export table on one partition. It keeps a
 * receive and a transmit queue per connection, the connection it currently polls, and
 * whether the first poll has been sent; it turns poll responses into decoder callbacks
 * and answers each with an acknowledgement.
 *
 * The state functions below say what each operation does to a `SinkState`; the class
 * `ExportDataSink` performs the operations in place and is proved to agree with them.
 */
module ExportSink {
  import opened Wrappers
  import opened ExportRows

  /** ExportProtoMessage, reduced to the header flags and fields the sink reads or sets. */
  datatype ExportMessage = ExportMessage(
    partitionId: int, signature: string,
    isPoll: bool, isAck: bool, isPollResponse: bool,
    ackOffset: int, data: seq<Byte>)

  /** A fresh message with poll() applied. */
  function PollMessage(partitionId: int, signature: string): ExportMessage
  {
    ExportMessage(partitionId, signature, true, false, false, 0, [])
  }

  /** A fresh message with poll().ack(offset) applied. */
  function PollAckMessage(partitionId: int, signature: string, offset: int): ExportMessage
  {
    ExportMessage(partitionId, signature, true, true, false, offset, [])
  }

  /** A fresh message with ack(offset) applied. */
  function AckMessage(partitionId: int, signature: string, offset: int): ExportMessage
  {
    ExportMessage(partitionId, signature, false, true, false, offset, [])
  }

  /** The calls the sink makes on its ExportDecoderBase, in order. */
  datatype DecoderEvent =
    | NoDataReceived(ackOffset: int)
    | ProcessRow(length: int, row: seq<Byte>)
    | BlockCompletion

  /** The exceptions that escape the sink's operations. */
  datatype SinkError =
    | NoActiveConnection     // NullPointerException: no transmit queue for the active connection
    | Underflow              // BufferUnderflowException while reading the payload
    | NegativeRowLength      // NegativeArraySizeException for a negative row length

  function ErrorOf(f: ParseFailure): SinkError
  {
    match f
    case BufferUnderflow => Underflow
    case NegativeArraySize => NegativeRowLength
  }

  /** The sink's fields; `events` records the decoder calls made so far. */
  datatype SinkState = SinkState(
    partitionId: int, signature: string,
    active: Option<string>,
    rx: map<string, seq<ExportMessage>>,
    tx: map<string, seq<ExportMessage>>,
    started: bool,
    events: seq<DecoderEvent>)

  /** The state after an operation, and the exception it ended with, if any. */
  datatype Step = Step(state: SinkState, failure: Option<SinkError>)

  /** Both queue maps have the same connections, and the active connection is one of them. */
  predicate Valid(s: SinkState)
  {
    s.rx.Keys == s.tx.Keys && (s.active.Some? ==> s.active.value in s.tx)
  }

  function Initial(partitionId: int, signature: string): SinkState
  {
    SinkState(partitionId, signature, None, map[], map[], false, [])
  }

  /** addExportConnection: the first connection becomes active; the name gets new, empty queues. */
  function AddConnection(s: SinkState, name: string): SinkState
  {
    var active := if s.active.None? then Some(name) else s.active;
    s.(active := active, rx := s.rx[name := []], tx := s.tx[name := []])
  }

  /** poll: a poll message on the active connection's transmit queue. */
  function Poll(s: SinkState): Step
  {
    if s.active.Some? && s.active.value in s.tx then
      var name := s.active.value;
      Step(s.(tx := s.tx[name := s.tx[name] + [PollMessage(s.partitionId, s.signature)]]), None)
    else Step(s, Some(NoActiveConnection))
  }

  /** The message pollAndAck sends on `name`: poll and ack to the active connection, ack alone to any other. */
  function AckFor(s: SinkState, name: string, ackOffset: int): ExportMessage
  {
    if s.active == Some(name) then PollAckMessage(s.partitionId, s.signature, ackOffset)
    else AckMessage(s.partitionId, s.signature, ackOffset)
  }

  /** pollAndAck: one message on every transmit queue. */
  function PollAndAck(s: SinkState, ackOffset: int): SinkState
  {
    s.(tx := map name | name in s.tx :: s.tx[name] + [AckFor(s, name, ackOffset)])
  }

  /** An empty block: the decoder is told there was no data, and the sink polls again. */
  function NoData(s: SinkState, ackOffset: int): Step
  {
    Poll(s.(events := s.events + [NoDataReceived(ackOffset)]))
  }

  /** One processRow call per row, in order. */
  function RowEvents(rows: seq<seq<Byte>>): (r: seq<DecoderEvent>)
    ensures |r| == |rows|
    ensures forall i :: 0 <= i < |rows| ==> r[i] == ProcessRow(|rows[i]|, rows[i])
  {
    seq(|rows|, i requires 0 <= i < |rows| => ProcessRow(|rows[i]|, rows[i]))
  }

  /** One more row read is one more processRow call. */
  lemma RowEventsSnoc(rows: seq<seq<Byte>>, row: seq<Byte>)
    ensures RowEvents(rows + [row]) == RowEvents(rows) + [ProcessRow(|row|, row)]
  {
  }

  /**
   * handlePollResponse: an empty payload, or a block length of zero, means no data. Otherwise
   * the rows after the block length are handed to the decoder in order, then the block is
   * completed and acknowledged; a malformed payload stops the walk with the rows read so far.
   */
  function HandlePollResponse(s: SinkState, m: ExportMessage): Step
  {
    if |m.data| == 0 then NoData(s, m.ackOffset)
    else if |m.data| < 4 then Step(s, Some(Underflow))
    else if LeInt32(m.data[..4]) == 0 then NoData(s, m.ackOffset)
    else
      var parsed := ReadRows(m.data[4..]);
      var s1 := s.(events := s.events + RowEvents(parsed.rows));
      if parsed.failure.Some? then Step(s1, Some(ErrorOf(parsed.failure.value)))
      else Step(PollAndAck(s1.(events := s1.events + [BlockCompletion]), m.ackOffset), None)
  }

  /**
   * The receive loop of work over the connections in `order`: each connection's head
   * message, if any, is taken off; a poll response makes its connection active and is
   * handled, anything else is dropped. An exception ends the loop.
   */
  function WorkLoop(s: SinkState, order: seq<string>): Step
    decreases |order|
  {
    if order == [] then Step(s, None)
    else
      var name := order[0];
      if name !in s.rx || s.rx[name] == [] then WorkLoop(s, order[1..])
      else
        var m := s.rx[name][0];
        var s1 := s.(rx := s.rx[name := s.rx[name][1..]]);
        if !m.isPollResponse then WorkLoop(s1, order[1..])
        else
          var handled := HandlePollResponse(s1.(active := Some(name)), m);
          if handled.failure.Some? then handled else WorkLoop(handled.state, order[1..])
  }

  /** work: the first call polls and marks the sink started, then the receive loop runs. */
  function Work(s: SinkState, order: seq<string>): Step
  {
    if !s.started then
      var polled := Poll(s);
      if polled.failure.Some? then polled else WorkLoop(polled.state.(started := true), order)
    else WorkLoop(s, order)
  }

  /** connectionClosed: the next work polls again. */
  function ConnectionClosed(s: SinkState): SinkState
  {
    s.(started := false)
  }

  /** No connection is listed twice. */
  predicate Distinct(order: seq<string>)
  {
    forall i, j :: 0 <= i < j < |order| ==> order[i] != order[j]
  }

  /** The rest of a list without repeats has no repeats and does not list the first. */
  lemma DistinctTail(order: seq<string>)
    requires Distinct(order) && order != []
    ensures Distinct(order[1..]) && order[0] !in order[1..]
  {
    var rest := order[1..];
    forall j | 0 <= j < |rest| ensures rest[j] != order[0] {
      assert rest[j] == order[j + 1];
    }
    forall i, j | 0 <= i < j < |rest| ensures rest[i] != rest[j] {
      assert rest[i] == order[i + 1] && rest[j] == order[j + 1];
    }
  }

  /** `order` lists each key of `keys` once: a HashMap iteration order. */
  ghost predicate Enumerates(order: seq<string>, keys: set<string>)
  {
    Distinct(order) && forall k :: k in order <==> k in keys
  }

  // ---------------------------------------------------------------------------------------
  // Properties of the operations

  /**
   * The first connection added becomes active and later ones leave the active connection
   * alone; the added name has empty queues, every other queue is unchanged, and validity is kept.
   */
  lemma AddConnectionEffect(s: SinkState, name: string)
    ensures var t := AddConnection(s, name);
      && (s.active.None? ==> t.active == Some(name))
      && (s.active.Some? ==> t.active == s.active)
      && t.rx[name] == [] && t.tx[name] == []
      && (forall k :: k != name ==> (k in t.rx <==> k in s.rx) && (k in t.tx <==> k in s.tx))
      && (forall k :: k != name && k in s.rx ==> t.rx[k] == s.rx[k])
      && (forall k :: k != name && k in s.tx ==> t.tx[k] == s.tx[k])
      && t.started == s.started && t.events == s.events
    ensures Valid(s) ==> Valid(AddConnection(s, name))
  {
  }

  /**
   * poll fails exactly when there is no active connection with a transmit queue; otherwise
   * it appends one poll message to that queue and changes nothing else.
   */
  lemma PollEffect(s: SinkState)
    ensures Poll(s).failure.Some? <==> !(s.active.Some? && s.active.value in s.tx)
    ensures Poll(s).failure.Some? ==> Poll(s).state == s
    ensures Poll(s).failure.None? ==>
      var t := Poll(s).state;
      var name := s.active.value;
      && t.tx.Keys == s.tx.Keys
      && t.tx[name] == s.tx[name] + [PollMessage(s.partitionId, s.signature)]
      && (forall k :: k in s.tx && k != name ==> t.tx[k] == s.tx[k])
      && t.rx == s.rx && t.active == s.active && t.started == s.started && t.events == s.events
    ensures Valid(s) && s.active.Some? ==> Poll(s).failure.None?
  {
  }

  /**
   * pollAndAck puts exactly one message on every transmit queue: poll and ack on the active
   * connection, ack alone on the others, all acknowledging the same offset.
   */
  lemma PollAndAckFanOut(s: SinkState, ackOffset: int)
    ensures var t := PollAndAck(s, ackOffset);
      && t.tx.Keys == s.tx.Keys
      && (forall k :: k in s.tx ==> |t.tx[k]| == |s.tx[k]| + 1 && t.tx[k][..|s.tx[k]|] == s.tx[k])
      && (forall k :: k in s.tx ==> t.tx[k][|s.tx[k]|].isAck && t.tx[k][|s.tx[k]|].ackOffset == ackOffset)
      && (forall k :: k in s.tx ==> (t.tx[k][|s.tx[k]|].isPoll <==> s.active == Some(k)))
      && t.rx == s.rx && t.active == s.active && t.started == s.started && t.events == s.events
  {
    var t := PollAndAck(s, ackOffset);
    forall k | k in s.tx ensures t.tx[k][..|s.tx[k]|] == s.tx[k] {
      assert t.tx[k] == s.tx[k] + [AckFor(s, k, ackOffset)];
    }
  }

  /**
   * An empty payload, or a block length of zero, tells the decoder there was no data (with
   * the response's offset) and polls again; no row is processed.
   */
  lemma HandleEmptyBlock(s: SinkState, m: ExportMessage)
    requires |m.data| == 0 || (|m.data| >= 4 && LeInt32(m.data[..4]) == 0)
    ensures HandlePollResponse(s, m) == Poll(s.(events := s.events + [NoDataReceived(m.ackOffset)]))
  {
  }

  /**
   * A payload made of a non-zero block length and encoded rows hands exactly those rows to
   * the decoder in order, completes the block, and acknowledges the response's offset.
   */
  lemma HandleEncodedBlock(s: SinkState, m: ExportMessage, blockLength: int, rows: seq<seq<Byte>>)
    requires IsInt32(blockLength) && blockLength != 0 && Encodable(rows)
    requires m.data == LeBytes(blockLength) + EncodeRows(rows)
    ensures HandlePollResponse(s, m) ==
      Step(PollAndAck(s.(events := s.events + RowEvents(rows) + [BlockCompletion]), m.ackOffset), None)
  {
    LeInt32OfLeBytes(blockLength);
    assert m.data[..4] == LeBytes(blockLength);
    assert m.data[4..] == EncodeRows(rows);
    ReadRowsOfEncodeRows(rows);
  }

  /** Whatever it does, handlePollResponse only appends: to the decoder events and to transmit queues. */
  lemma HandlePollResponseAppends(s: SinkState, m: ExportMessage)
    ensures var t := HandlePollResponse(s, m).state;
      && t.rx == s.rx && t.active == s.active && t.started == s.started
      && t.tx.Keys == s.tx.Keys && (forall k :: k in s.tx ==> s.tx[k] <= t.tx[k])
      && s.events <= t.events
  {
    if |m.data| == 0 || (|m.data| >= 4 && LeInt32(m.data[..4]) == 0) {
      PollEffect(s.(events := s.events + [NoDataReceived(m.ackOffset)]));
    } else if |m.data| >= 4 {
      var parsed := ReadRows(m.data[4..]);
      var s2 := s.(events := s.events + RowEvents(parsed.rows) + [BlockCompletion]);
      if parsed.failure.None? {
        PollAndAckFanOut(s2, m.ackOffset);
      }
    }
  }

  /** The receive loop only takes heads off queues of connections it visits. */
  lemma {:induction false} WorkLoopLeavesOthers(s: SinkState, order: seq<string>, k: string)
    requires k !in order
    ensures var t := WorkLoop(s, order).state;
      (k in s.rx <==> k in t.rx) && (k in s.rx ==> t.rx[k] == s.rx[k])
    decreases |order|
  {
    if order != [] {
      var name := order[0];
      if name in s.rx && s.rx[name] != [] {
        var m := s.rx[name][0];
        var s1 := s.(rx := s.rx[name := s.rx[name][1..]]);
        if m.isPollResponse {
          var handled := HandlePollResponse(s1.(active := Some(name)), m);
          HandlePollResponseAppends(s1.(active := Some(name)), m);
          if handled.failure.None? {
            WorkLoopLeavesOthers(handled.state, order[1..], k);
          }
        } else {
          WorkLoopLeavesOthers(s1, order[1..], k);
        }
      } else {
        WorkLoopLeavesOthers(s, order[1..], k);
      }
    }
  }

  /**
   * One receive loop over distinct connections takes at most the head message off each
   * receive queue, leaves the set of connections alone, and only appends to transmit
   * queues and to the decoder events.
   */
  lemma {:induction false} WorkLoopEffect(s: SinkState, order: seq<string>)
    requires Distinct(order)
    ensures var t := WorkLoop(s, order).state;
      && t.rx.Keys == s.rx.Keys && t.tx.Keys == s.tx.Keys && t.started == s.started
      && (forall k :: k in s.rx ==> t.rx[k] == s.rx[k] || (s.rx[k] != [] && t.rx[k] == s.rx[k][1..]))
      && (forall k :: k in s.tx ==> s.tx[k] <= t.tx[k])
      && s.events <= t.events
    decreases |order|
  {
    if order != [] {
      var name := order[0];
      var rest := order[1..];
      DistinctTail(order);
      if name in s.rx && s.rx[name] != [] {
        var m := s.rx[name][0];
        var s1 := s.(rx := s.rx[name := s.rx[name][1..]]);
        if m.isPollResponse {
          var s2 := s1.(active := Some(name));
          var handled := HandlePollResponse(s2, m);
          HandlePollResponseAppends(s2, m);
          if handled.failure.None? {
            WorkLoopEffect(handled.state, rest);
            WorkLoopLeavesOthers(handled.state, rest, name);
            PrefixTransitive(s, handled.state, WorkLoop(handled.state, rest).state);
          }
        } else {
          WorkLoopEffect(s1, rest);
          WorkLoopLeavesOthers(s1, rest, name);
        }
      } else {
        WorkLoopEffect(s, rest);
      }
    }
  }

  /**
   * A head message that is not a poll response is dropped: taking it off its queue is all
   * the receive loop does with it.
   */
  lemma WorkLoopDropsOther(s: SinkState, name: string)
    requires name in s.rx && s.rx[name] != [] && !s.rx[name][0].isPollResponse
    ensures WorkLoop(s, [name]) == Step(s.(rx := s.rx[name := s.rx[name][1..]]), None)
  {
  }

  /**
   * When no visited connection has a poll response at the head of its queue, the receive
   * loop only drops those heads: nothing is sent, the decoder is not called, the active
   * connection stays and nothing fails.
   */
  lemma {:induction false} WorkLoopWithoutResponses(s: SinkState, order: seq<string>)
    requires Distinct(order)
    requires forall k :: k in order && k in s.rx && s.rx[k] != [] ==> !s.rx[k][0].isPollResponse
    ensures var r := WorkLoop(s, order);
      && r.failure.None?
      && r.state == s.(rx := r.state.rx)
      && r.state.rx.Keys == s.rx.Keys
      && (forall k :: k in s.rx ==>
            r.state.rx[k] == if k in order && s.rx[k] != [] then s.rx[k][1..] else s.rx[k])
    decreases |order|
  {
    if order != [] {
      var name := order[0];
      var rest := order[1..];
      DistinctTail(order);
      if name in s.rx && s.rx[name] != [] {
        var s1 := s.(rx := s.rx[name := s.rx[name][1..]]);
        WorkLoopWithoutResponses(s1, rest);
      } else {
        WorkLoopWithoutResponses(s, rest);
      }
    }
  }

  /** A receive loop over distinct connections that ends without an exception takes the head off every visited non-empty queue. */
  lemma {:induction false} WorkLoopTakesEachHead(s: SinkState, order: seq<string>)
    requires Distinct(order)
    requires WorkLoop(s, order).failure.None?
    ensures forall k :: k in order && k in s.rx && s.rx[k] != [] ==>
      k in WorkLoop(s, order).state.rx && WorkLoop(s, order).state.rx[k] == s.rx[k][1..]
    decreases |order|
  {
    if order != [] {
      var name := order[0];
      var rest := order[1..];
      DistinctTail(order);
      if name in s.rx && s.rx[name] != [] {
        var m := s.rx[name][0];
        var s1 := s.(rx := s.rx[name := s.rx[name][1..]]);
        var next := s1;
        if m.isPollResponse {
          var s2 := s1.(active := Some(name));
          HandlePollResponseAppends(s2, m);
          next := HandlePollResponse(s2, m).state;
        }
        assert WorkLoop(s, order) == WorkLoop(next, rest);
        assert next.rx == s1.rx;
        WorkLoopTakesEachHead(next, rest);
        WorkLoopLeavesOthers(next, rest, name);
      } else {
        WorkLoopTakesEachHead(s, rest);
      }
    }
  }

  /**
   * A work call over a HashMap order that ends without an exception takes exactly the head
   * message off every non-empty receive queue.
   */
  lemma WorkTakesEachHead(s: SinkState, order: seq<string>)
    requires Enumerates(order, s.rx.Keys)
    requires Work(s, order).failure.None?
    ensures var t := Work(s, order).state;
      forall k :: k in s.rx ==> k in t.rx && t.rx[k] == if s.rx[k] == [] then [] else s.rx[k][1..]
  {
    var p := if s.started then s else Poll(s).state.(started := true);
    PollEffect(s);
    assert p.rx == s.rx;
    WorkLoopTakesEachHead(p, order);
    WorkLoopEffect(p, order);
  }

  /**
   * One work call over a HashMap order takes at most the head message off each receive
   * queue, keeps the set of connections, and only appends to transmit queues and to the
   * decoder events; it ends started unless its initial poll failed.
   */
  lemma WorkTakesAtMostOneHead(s: SinkState, order: seq<string>)
    requires Enumerates(order, s.rx.Keys)
    ensures var t := Work(s, order).state;
      && t.rx.Keys == s.rx.Keys && t.tx.Keys == s.tx.Keys
      && (forall k :: k in s.rx ==> t.rx[k] == s.rx[k] || (s.rx[k] != [] && t.rx[k] == s.rx[k][1..]))
      && (forall k :: k in s.tx ==> s.tx[k] <= t.tx[k])
      && s.events <= t.events
      && (t.started <==> s.started || Poll(s).failure.None?)
  {
    if !s.started {
      PollEffect(s);
      if Poll(s).failure.None? {
        var p := Poll(s).state.(started := true);
        WorkLoopEffect(p, order);
        PrefixTransitive(s, p, WorkLoop(p, order).state);
      }
    } else {
      WorkLoopEffect(s, order);
    }
  }

  /** Appending twice is appending. */
  lemma PrefixTransitive(a: SinkState, b: SinkState, c: SinkState)
    requires a.tx.Keys == b.tx.Keys == c.tx.Keys
    requires forall k :: k in a.tx ==> a.tx[k] <= b.tx[k]
    requires forall k :: k in b.tx ==> b.tx[k] <= c.tx[k]
    requires a.events <= b.events && b.events <= c.events
    ensures forall k :: k in a.tx ==> a.tx[k] <= c.tx[k]
    ensures a.events <= c.events
  {
    forall k | k in a.tx ensures a.tx[k] <= c.tx[k] {
      assert c.tx[k][..|a.tx[k]|] == c.tx[k][..|b.tx[k]|][..|a.tx[k]|];
    }
    assert c.events[..|a.events|] == c.events[..|b.events|][..|a.events|];
  }

  /**
   * After the receive loop the active connection is the one before it, or a visited
   * connection whose head message was a poll response.
   */
  lemma {:induction false} WorkLoopActive(s: SinkState, order: seq<string>)
    requires Distinct(order)
    ensures var t := WorkLoop(s, order).state;
      t.active == s.active ||
      exists i :: 0 <= i < |order| && t.active == Some(order[i]) && order[i] in s.rx
        && s.rx[order[i]] != [] && s.rx[order[i]][0].isPollResponse
    decreases |order|
  {
    if order != [] {
      var name := order[0];
      var rest := order[1..];
      DistinctTail(order);
      if name in s.rx && s.rx[name] != [] {
        var m := s.rx[name][0];
        var s1 := s.(rx := s.rx[name := s.rx[name][1..]]);
        if m.isPollResponse {
          var s2 := s1.(active := Some(name));
          var handled := HandlePollResponse(s2, m);
          HandlePollResponseAppends(s2, m);
          if handled.failure.None? {
            WorkLoopActive(handled.state, rest);
            var t := WorkLoop(handled.state, rest).state;
            if t.active != Some(name) {
              var i :| 0 <= i < |rest| && t.active == Some(rest[i]) && rest[i] in handled.state.rx
                && handled.state.rx[rest[i]] != [] && handled.state.rx[rest[i]][0].isPollResponse;
              assert rest[i] == order[i + 1] && rest[i] != name;
              assert handled.state.rx[rest[i]] == s.rx[rest[i]];
            }
          }
        } else {
          WorkLoopActive(s1, rest);
          var t := WorkLoop(s1, rest).state;
          if t.active != s.active {
            var i :| 0 <= i < |rest| && t.active == Some(rest[i]) && rest[i] in s1.rx
              && s1.rx[rest[i]] != [] && s1.rx[rest[i]][0].isPollResponse;
            assert rest[i] == order[i + 1];
            assert rest[i] != name;
          }
        }
      } else {
        WorkLoopActive(s, rest);
        var t := WorkLoop(s, rest).state;
        if t.active != s.active {
          var i :| 0 <= i < |rest| && t.active == Some(rest[i]) && rest[i] in s.rx
            && s.rx[rest[i]] != [] && s.rx[rest[i]][0].isPollResponse;
          assert rest[i] == order[i + 1];
        }
      }
    }
  }

  /**
   * Only a sink that has not started polls at the beginning of work; after connectionClosed
   * the next work polls the active connection again before receiving.
   */
  lemma WorkPollsAfterClose(s: SinkState, order: seq<string>)
    requires Valid(s) && s.active.Some?
    ensures s.started ==> Work(s, order) == WorkLoop(s, order)
    ensures Work(ConnectionClosed(s), order) ==
      WorkLoop(Poll(ConnectionClosed(s)).state.(started := true), order)
    ensures Poll(ConnectionClosed(s)).failure.None?
  {
  }

  /** Polling, acknowledging, handling a response and closing keep the sink valid. */
  lemma OperationsKeepValid(s: SinkState, m: ExportMessage, ackOffset: int)
    requires Valid(s)
    ensures Valid(Poll(s).state) && Valid(PollAndAck(s, ackOffset)) && Valid(ConnectionClosed(s))
    ensures Valid(HandlePollResponse(s, m).state)
  {
    HandlePollResponseAppends(s, m);
  }

  /** The receive loop keeps the sink valid: a connection it makes active has queues. */
  lemma {:induction false} WorkLoopKeepsValid(s: SinkState, order: seq<string>)
    requires Valid(s)
    ensures Valid(WorkLoop(s, order).state)
    decreases |order|
  {
    if order != [] {
      var name := order[0];
      if name in s.rx && s.rx[name] != [] {
        var m := s.rx[name][0];
        var s1 := s.(rx := s.rx[name := s.rx[name][1..]]);
        if m.isPollResponse {
          var s2 := s1.(active := Some(name));
          OperationsKeepValid(s2, m, 0);
          WorkLoopKeepsValid(HandlePollResponse(s2, m).state, order[1..]);
        } else {
          WorkLoopKeepsValid(s1, order[1..]);
        }
      } else {
        WorkLoopKeepsValid(s, order[1..]);
      }
    }
  }

  /** work keeps the sink valid. */
  lemma WorkKeepsValid(s: SinkState, order: seq<string>)
    requires Valid(s)
    ensures Valid(Work(s, order).state)
  {
    if !s.started {
      OperationsKeepValid(s, ExportMessage(0, [], false, false, false, 0, []), 0);
      if Poll(s).failure.None? {
        WorkLoopKeepsValid(Poll(s).state.(started := true), order);
      }
    } else {
      WorkLoopKeepsValid(s, order);
    }
  }
}
