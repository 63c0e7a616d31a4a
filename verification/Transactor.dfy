/** The transactor object: its fields are updated in place by the send loop and by whoever cancels it. */
module Transactors {
  import opened Basics
  import opened LoadConfig
  import opened TransactorModel

  class Transactor {
    const config: Config
    var id: nat                       // the identifier used in progress callbacks
    var txCount: nat
    var txBytes: nat
    var stop: bool
    var stopErr: Option<StopError>
    var closed: bool                  // the send loop has closed the connection and returned
    ghost var wire: seq<Frame>        // every frame written to the connection
    ghost var breaks: nat             // batches ended by their deadline
    ghost var reports: seq<(nat, nat)>

    ghost function View(): State
      reads this
    {
      State(txCount, txBytes, stop, stopErr, closed, wire, breaks, reports)
    }

    constructor (config: Config, id: nat)
      ensures View() == INIT && this.config == config && this.id == id
    {
      this.config := config;
      this.id := id;
      txCount, txBytes := 0, 0;
      stop, stopErr, closed := false, None, false;
      wire, breaks, reports := [], 0, [];
    }

    method SetStop(err: Option<StopError>)
      modifies this`stop, this`stopErr
      ensures View() == TransactorModel.SetStop(old(View()), err)
    {
      stop := true;
      if err.Some? {
        stopErr := err;
      }
    }

    method Cancel()
      modifies this`stop, this`stopErr
      ensures View() == TransactorModel.SetStop(old(View()), Some(Cancelled))
    {
      SetStop(Some(Cancelled));
    }

    method TrackSentTxs(count: nat, byteCount: nat)
      modifies this`txCount, this`txBytes
      ensures txCount == old(txCount) + count && txBytes == old(txBytes) + byteCount
    {
      txCount := txCount + count;
      txBytes := txBytes + byteCount;
    }

    /** One batch. The statistics are updated on every way out, including the failing ones. */
    method SendTransactions(env: nat -> Outcome) returns (failed: bool)
      modifies this`txCount, this`txBytes, this`wire, this`breaks
      ensures failed == RunBatch(env, 0, ToSend(config, old(txCount))).failed
      ensures View() == RecordBatch(old(View()), RunBatch(env, 0, ToSend(config, old(txCount))))
    {
      var totalSent := txCount;
      var toSend := config.rate;
      if config.count > 0 && totalSent + toSend > config.count {
        toSend := config.count - totalSent;
      }
      hide RunBatch;
      ghost var batch := RunBatch(env, 0, toSend);
      ghost var frames: seq<Frame> := [];
      var sent: nat, sentBytes: nat := 0, 0;
      failed := false;
      while sent < toSend
        invariant txCount == old(txCount) && txBytes == old(txBytes)
        invariant wire == old(wire) + frames && breaks == old(breaks)
        invariant batch == After(sent, sentBytes, frames, RunBatch(env, sent, toSend))
        decreases toSend - sent
      {
        match env(sent) {
          case GenerateFails =>
            AfterEnd(env, toSend, sent, sentBytes, frames);
            failed := true;
            break;
          case WriteFails =>
            AfterEnd(env, toSend, sent, sentBytes, frames);
            failed := true;
            break;
          case Written(size, late) =>
            AfterStep(env, toSend, sent, sentBytes, frames);
            frames := frames + [TxFrame(size)];
            wire := wire + [TxFrame(size)];
            sentBytes := sentBytes + size;
            if late {
              // the loop is left before its counter is incremented
              breaks := breaks + 1;
              break;
            }
        }
        sent := sent + 1;
      }
      if sent >= toSend {
        AfterEnd(env, toSend, sent, sentBytes, frames);
      }
      assert batch == Batch(sent, sentBytes, frames, breaks > old(breaks), failed);
      TrackSentTxs(sent, sentBytes);
    }

    method ReportProgress() returns (count: nat, bytes: nat)
      modifies this`reports
      ensures count == txCount && bytes == txBytes
      ensures View() == Handle(config, old(View()), ProgressTick)
    {
      count, bytes := txCount, txBytes;
      reports := reports + [(count, bytes)];
    }

    method Close(ok: bool)
      modifies this`wire, this`closed
      ensures View() == TransactorModel.Close(old(View()), ok)
    {
      if ok {
        wire := wire + [CloseFrame];
      }
      closed := true;
    }

    /** One turn of the loop: the cap is checked, one event is handled, and a stop closes the connection. */
    method TakeTurn(turn: Turn)
      modifies this
      ensures View() == Iterate(config, old(View()), turn)
      ensures id == old(id)
    {
      hide RunBatch, ToSend;
      if config.count > 0 && txCount >= config.count {
        SetStop(None);
      }
      match turn.event {
        case SendTick(env) =>
          var failed := SendTransactions(env);
          if failed {
            SetStop(Some(SendFailed));
          }
        case ProgressTick =>
          var _, _ := ReportProgress();
        case PingTick(ok) =>
          if ok {
            wire := wire + [PingFrame];
          } else {
            SetStop(Some(PingFailed));
          }
        case TimeLimit =>
          SetStop(None);
      }
      if turn.cancel {
        Cancel();
      }
      if stop {
        Close(turn.closeOk);
      }
    }

    /** The send loop over a finite prefix of its environment. */
    method SendLoop(turns: seq<Turn>)
      modifies this
      ensures View() == TransactorModel.SendLoop(config, old(View()), turns)
      ensures id == old(id)
    {
      hide Iterate, TransactorModel.SendLoop;
      var k := 0;
      while k < |turns| && !closed
        invariant 0 <= k <= |turns| && id == old(id)
        invariant TransactorModel.SendLoop(config, old(View()), turns)
               == TransactorModel.SendLoop(config, View(), turns[k..])
      {
        LoopStep(config, View(), turns[k..]);
        assert turns[k..][1..] == turns[k + 1..];
        TakeTurn(turns[k]);
        k := k + 1;
      }
      LoopStep(config, View(), turns[k..]);
    }
  }
}
