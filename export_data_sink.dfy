/**
 * The ExportDataSink object: its fields are updated in place by its operations, and each
 * operation is proved to do to them what the corresponding function of `ExportSink` says.
 * The decoder it drives is represented by the log of calls made on it.
 */
module ExportDataSinks {
  import opened Wrappers
  import opened ExportRows
  import S = ExportSink

  class ExportDataSink {
    const partitionId: int
    const tableSignature: string
    var activeConnection: Option<string>
    var rxQueues: map<string, seq<S.ExportMessage>>
    var txQueues: map<string, seq<S.ExportMessage>>
    var started: bool
    /** The calls made so far on the decoder. */
    var events: seq<S.DecoderEvent>

    /** The fields, as a value. */
    function State(): S.SinkState
      reads this
    {
      S.SinkState(partitionId, tableSignature, activeConnection, rxQueues, txQueues, started, events)
    }

    /** A sink with no connection, not yet started. */
    constructor (partitionId: int, tableSignature: string)
      ensures State() == S.Initial(partitionId, tableSignature)
    {
      this.partitionId := partitionId;
      this.tableSignature := tableSignature;
      activeConnection := None;
      rxQueues := map[];
      txQueues := map[];
      started := false;
      events := [];
    }

    /** addExportConnection. */
    method AddExportConnection(connectionName: string)
      modifies this
      ensures State() == S.AddConnection(old(State()), connectionName)
    {
      if activeConnection.None? {
        activeConnection := Some(connectionName);
      }
      rxQueues := rxQueues[connectionName := []];
      txQueues := txQueues[connectionName := []];
    }

    /** poll: fails, changing nothing, when the active connection has no transmit queue. */
    method Poll() returns (err: Option<S.SinkError>)
      modifies this`txQueues
      ensures S.Step(State(), err) == S.Poll(old(State()))
    {
      if activeConnection.None? || activeConnection.value !in txQueues {
        return Some(S.NoActiveConnection);
      }
      var m := S.PollMessage(partitionId, tableSignature);
      var name := activeConnection.value;
      txQueues := txQueues[name := txQueues[name] + [m]];
      err := None;
    }

    /** pollAndAck: one message onto each transmit queue, in whatever order the keys come. */
    method PollAndAck(ackOffset: int)
      modifies this`txQueues
      ensures State() == S.PollAndAck(old(State()), ackOffset)
    {
      var next := S.PollAckMessage(partitionId, tableSignature, ackOffset);
      var ack := S.AckMessage(partitionId, tableSignature, ackOffset);
      ghost var start := State();
      ghost var goal := S.PollAndAck(start, ackOffset).tx;
      var remaining := txQueues.Keys;
      while remaining != {}
        invariant remaining <= goal.Keys && txQueues.Keys == goal.Keys
        invariant forall k :: k in goal ==> txQueues[k] == if k in remaining then start.tx[k] else goal[k]
        decreases remaining
      {
        var connectionName :| connectionName in remaining;
        if activeConnection == Some(connectionName) {
          txQueues := txQueues[connectionName := txQueues[connectionName] + [next]];
        } else {
          txQueues := txQueues[connectionName := txQueues[connectionName] + [ack]];
        }
        remaining := remaining - {connectionName};
      }
    }

    /**
     * The row walk of handlePollResponse over the payload after the block length, with
     * `remaining` playing the buffer's unread bytes: each row is handed to the decoder as
     * soon as it is read, and a malformed row ends the walk.
     */
    method ProcessRows(data: seq<Byte>) returns (err: Option<S.SinkError>)
      modifies this`events
      ensures events == old(events) + S.RowEvents(ReadRows(data).rows)
      ensures err.None? <==> ReadRows(data).failure.None?
      ensures err.Some? ==> err.value == S.ErrorOf(ReadRows(data).failure.value)
    {
      ghost var rows: seq<seq<Byte>> := [];
      var remaining := data;
      while |remaining| > 0
        invariant ReadRows(data).rows == rows + ReadRows(remaining).rows
        invariant ReadRows(data).failure == ReadRows(remaining).failure
        invariant events == old(events) + S.RowEvents(rows)
        decreases |remaining|
      {
        if |remaining| < 4 {
          assert ReadRows(data).rows == rows + [];
          return Some(S.Underflow);
        }
        var length := LeInt32(remaining[..4]);
        if length < 0 || |remaining| - 4 < length {
          assert ReadRows(data).rows == rows + [];
          return if length < 0 then Some(S.NegativeRowLength) else Some(S.Underflow);
        }
        var row := remaining[4..4 + length];
        ghost var after := ReadRows(remaining[4 + length..]);
        assert (rows + [row]) + after.rows == rows + ([row] + after.rows);
        events := events + [S.ProcessRow(length, row)];
        S.RowEventsSnoc(rows, row);
        rows := rows + [row];
        remaining := remaining[4 + length..];
      }
      assert ReadRows(data).rows == rows + [];
      err := None;
    }

    /**
     * handlePollResponse: no data for an empty payload or a zero block length; otherwise
     * the rows, then block completion and pollAndAck.
     */
    method HandlePollResponse(m: S.ExportMessage) returns (err: Option<S.SinkError>)
      modifies this`events, this`txQueues
      ensures S.Step(State(), err) == S.HandlePollResponse(old(State()), m)
    {
      var data := m.data;
      if |data| == 0 {
        events := events + [S.NoDataReceived(m.ackOffset)];
        err := Poll();
        return;
      }
      if |data| < 4 {
        return Some(S.Underflow);
      }
      var ttlLength := LeInt32(data[..4]);
      if ttlLength == 0 {
        events := events + [S.NoDataReceived(m.ackOffset)];
        err := Poll();
        return;
      }
      err := ProcessRows(data[4..]);
      if err.Some? {
        return;
      }
      events := events + [S.BlockCompletion];
      PollAndAck(m.ackOffset);
    }

    /**
     * work over the receive queues in `order`, the iteration order of the receive map:
     * the first call polls first; then each queue's head is taken, and poll responses are handled.
     */
    method Work(order: seq<string>) returns (err: Option<S.SinkError>)
      requires S.Enumerates(order, rxQueues.Keys)
      modifies this
      ensures S.Step(State(), err) == S.Work(old(State()), order)
    {
      ghost var goal := S.Work(State(), order);
      if !started {
        err := Poll();
        if err.Some? {
          return;
        }
        started := true;
      }
      var i := 0;
      while i < |order|
        invariant 0 <= i <= |order|
        invariant S.WorkLoop(State(), order[i..]) == goal
        decreases |order| - i
      {
        var connectionName := order[i];
        assert order[i..][0] == connectionName && order[i..][1..] == order[i + 1..];
        if connectionName in rxQueues && rxQueues[connectionName] != [] {
          var m := rxQueues[connectionName][0];
          rxQueues := rxQueues[connectionName := rxQueues[connectionName][1..]];
          if m.isPollResponse {
            activeConnection := Some(connectionName);
            err := HandlePollResponse(m);
            if err.Some? {
              return;
            }
          }
        }
        i := i + 1;
      }
      err := None;
    }

    /** connectionClosed. */
    method ConnectionClosed()
      modifies this
      ensures State() == S.ConnectionClosed(old(State()))
    {
      started := false;
    }
  }
}
