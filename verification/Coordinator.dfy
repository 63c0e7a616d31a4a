/** The coordinator object. */
module Coordinators {
  import opened Basics
  import opened CoordinatorModel
  import M = CoordinatorModel

  class Coordinator {
    const expected: nat
    var workers: map<string, ConnId>
    var totalTxsPerWorker: map<string, nat>
    var totalBytesPerWorker: map<string, nat>
    var totalTxs: nat
    var totalBytes: nat
    var completed: nat                // a local variable of the receive loop in the source

    ghost function View(): Coord
      reads this
    {
      Coord(workers, totalTxsPerWorker, totalBytesPerWorker, totalTxs, totalBytes, completed)
    }

    constructor (expected: nat)
      ensures this.expected == expected && View() == INIT_COORD
    {
      this.expected := expected;
      workers, totalTxsPerWorker, totalBytesPerWorker := map[], map[], map[];
      totalTxs, totalBytes, completed := 0, 0, 0;
    }

    method RegisterRemoteWorker(id: string, conn: ConnId) returns (r: RegisterResult)
      modifies this
      ensures r == RegisterAnswer(old(View()), expected, id)
      ensures View() == Register(old(View()), expected, id, conn)
    {
      if |workers| >= expected {
        return TooManyWorkers;
      }
      if id in workers {
        return AlreadyExists;
      }
      workers := workers[id := conn];
      totalTxsPerWorker := totalTxsPerWorker[id := 0];
      totalBytesPerWorker := totalBytesPerWorker[id := 0];
      return Registered;
    }

    method UnregisterRemoteWorker(id: string)
      modifies this
      ensures View() == Unregister(old(View()), id)
    {
      workers := workers - {id};
    }

    method LogTestingProgress()
      modifies this
      ensures View() == Publish(old(View()))
    {
      var txs := AddUp(totalTxsPerWorker);
      var bytes := AddUp(totalBytesPerWorker);
      totalTxs, totalBytes := txs, bytes;
    }

    method WaitForWorkers(es: seq<WaitEvent>) returns (r: WaitOutcome)
      modifies this
      ensures (View(), r) == WaitLoop(old(View()), expected, es)
    {
      var i := 0;
      while i < |es|
        invariant 0 <= i <= |es|
        invariant WaitLoop(old(View()), expected, es) == WaitLoop(View(), expected, es[i..])
      {
        assert es[i..][1..] == es[i + 1..];
        match es[i] {
          case RegisterRequest(id, conn) =>
            var _ := RegisterRemoteWorker(id, conn);
            if |workers| >= expected {
              return Full;
            }
          case LeaveWhileWaiting(id) =>
            UnregisterRemoteWorker(id);
          case Interrupted =>
            return GaveUp;
        }
        i := i + 1;
      }
      return StillWaiting;
    }

    method ReceiveTestingUpdates(es: seq<ReceiveEvent>) returns (r: ReceiveOutcome)
      modifies this
      ensures (View(), r) == ReceiveLoop(old(View()).(completed := 0), expected, es)
    {
      completed := 0;
      var i := 0;
      while i < |es|
        invariant 0 <= i <= |es|
        invariant ReceiveLoop(old(View()).(completed := 0), expected, es) == ReceiveLoop(View(), expected, es[i..])
      {
        assert es[i..][1..] == es[i + 1..];
        match es[i] {
          case UpdateReceived(msg) =>
            if msg.id in workers {
              if msg.txCount > 0 {
                totalTxsPerWorker := totalTxsPerWorker[msg.id := msg.txCount];
              }
              if msg.totalTxBytes > 0 {
                totalBytesPerWorker := totalBytesPerWorker[msg.id := msg.totalTxBytes];
              }
              match msg.state {
                case Testing =>
                case Completed =>
                  completed := completed + 1;
                  if completed >= expected {
                    LogTestingProgress();
                    return Succeeded;
                  }
                case Failed =>
                  return FailedWith(WorkerReported);
                case _ =>
                  return FailedWith(Unexpected);
              }
            }
          case Left(id, err) =>
            UnregisterRemoteWorker(id);
            if err {
              return FailedWith(RemoteFailed);
            }
          case Tick =>
            LogTestingProgress();
          case Cancelled =>
            return FailedWith(Stopped);
        }
        i := i + 1;
      }
      return StillReceiving;
    }
  }
}
