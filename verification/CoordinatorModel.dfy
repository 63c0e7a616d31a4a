/** Messages between coordinator and workers, and the coordinator's bookkeeping as functions on its state. */
module CoordinatorModel {
  import opened Basics
  import opened LoadConfig

  type ConnId = nat

  datatype WorkerState = Unset | Connected | Accepted | Rejected | Testing | Failed | Completed

  datatype WorkerMsg = WorkerMsg(
    id: string, state: WorkerState, txCount: nat, totalTxBytes: nat, config: Option<Config>)

  function Plain(id: string, state: WorkerState): WorkerMsg {
    WorkerMsg(id, state, 0, 0, None)
  }

  datatype Coord = Coord(
    workers: map<string, ConnId>,
    txsPerWorker: map<string, nat>,
    bytesPerWorker: map<string, nat>,
    totalTxs: nat,
    totalBytes: nat,
    completed: nat)

  const INIT_COORD := Coord(map[], map[], map[], 0, 0, 0)

  datatype RegisterResult = Registered | TooManyWorkers | AlreadyExists

  function RegisterAnswer(c: Coord, expected: nat, id: string): RegisterResult {
    if |c.workers| >= expected then TooManyWorkers
    else if id in c.workers then AlreadyExists
    else Registered
  }

  function Register(c: Coord, expected: nat, id: string, conn: ConnId): Coord {
    if RegisterAnswer(c, expected, id) != Registered then c
    else c.(workers := c.workers[id := conn],
            txsPerWorker := c.txsPerWorker[id := 0],
            bytesPerWorker := c.bytesPerWorker[id := 0])
  }

  function Unregister(c: Coord, id: string): Coord {
    c.(workers := c.workers - {id})
  }

  /** Totals are overwritten only by positive reports. */
  function Record(c: Coord, m: WorkerMsg): Coord {
    c.(txsPerWorker := if m.txCount > 0 then c.txsPerWorker[m.id := m.txCount] else c.txsPerWorker,
       bytesPerWorker := if m.totalTxBytes > 0 then c.bytesPerWorker[m.id := m.totalTxBytes] else c.bytesPerWorker)
  }

  /** The integer part of `logTestingProgress`. */
  ghost function Publish(c: Coord): Coord {
    c.(totalTxs := SumMap(c.txsPerWorker), totalBytes := SumMap(c.bytesPerWorker))
  }

  datatype Verdict = Continue | AllCompleted | WorkerFailed | UnexpectedState

  function UpdateVerdict(c: Coord, expected: nat, m: WorkerMsg): Verdict {
    if m.id !in c.workers then Continue
    else match m.state
      case Testing => Continue
      case Completed => if c.completed + 1 >= expected then AllCompleted else Continue
      case Failed => WorkerFailed
      case _ => UnexpectedState
  }

  ghost function Update(c: Coord, expected: nat, m: WorkerMsg): Coord {
    if m.id !in c.workers then c
    else
      var r := Record(c, m);
      if m.state != Completed then r
      else
        var d := r.(completed := r.completed + 1);
        if d.completed >= expected then Publish(d) else d
  }

  // ------------------------------------------------------------ the two select loops, over what their channels deliver

  datatype WaitEvent = RegisterRequest(id: string, conn: ConnId) | LeaveWhileWaiting(id: string) | Interrupted

  datatype WaitOutcome = Full | GaveUp | StillWaiting

  /** `waitForWorkers` over a finite prefix of its events. */
  function WaitLoop(c: Coord, expected: nat, es: seq<WaitEvent>): (Coord, WaitOutcome)
    decreases |es|
  {
    if es == [] then (c, StillWaiting)
    else match es[0]
      case RegisterRequest(id, conn) =>
        var c' := Register(c, expected, id, conn);
        if |c'.workers| >= expected then (c', Full) else WaitLoop(c', expected, es[1..])
      case LeaveWhileWaiting(id) => WaitLoop(Unregister(c, id), expected, es[1..])
      case Interrupted => (c, GaveUp)
  }

  datatype ReceiveEvent = UpdateReceived(msg: WorkerMsg) | Left(id: string, err: bool) | Tick | Cancelled

  datatype ReceiveOutcome = Succeeded | FailedWith(reason: FailReason) | StillReceiving

  datatype FailReason = WorkerReported | Unexpected | RemoteFailed | Stopped

  /** `receiveTestingUpdates` over a finite prefix of its events. */
  ghost function ReceiveLoop(c: Coord, expected: nat, es: seq<ReceiveEvent>): (Coord, ReceiveOutcome)
    decreases |es|
  {
    if es == [] then (c, StillReceiving)
    else match es[0]
      case UpdateReceived(m) =>
        var c' := Update(c, expected, m);
        (match UpdateVerdict(c, expected, m)
         case Continue => ReceiveLoop(c', expected, es[1..])
         case AllCompleted => (c', Succeeded)
         case WorkerFailed => (c', FailedWith(WorkerReported))
         case UnexpectedState => (c', FailedWith(Unexpected)))
      case Left(id, err) =>
        if err then (Unregister(c, id), FailedWith(RemoteFailed))
        else ReceiveLoop(Unregister(c, id), expected, es[1..])
      case Tick => ReceiveLoop(Publish(c), expected, es[1..])
      case Cancelled => (c, FailedWith(Stopped))
  }

  lemma RegisterSize(c: Coord, expected: nat, id: string, conn: ConnId)
    requires |c.workers| < expected
    ensures |Register(c, expected, id, conn).workers| <= expected
  {
    assert c.workers[id := conn].Keys == c.workers.Keys + {id};
  }

  lemma UnregisterSize(c: Coord, id: string)
    ensures |Unregister(c, id).workers| <= |c.workers|
  {
    assert (c.workers - {id}).Keys == c.workers.Keys - {id};
    SubsetCardinality((c.workers - {id}).Keys, c.workers.Keys);
  }

  /** A full house is reached with exactly the expected number of distinct IDs, never more. */
  lemma {:induction false} WaitLoopFills(c: Coord, expected: nat, es: seq<WaitEvent>)
    requires |c.workers| < expected
    ensures (WaitLoop(c, expected, es).1 == Full <==> |WaitLoop(c, expected, es).0.workers| == expected)
    ensures |WaitLoop(c, expected, es).0.workers| <= expected
    decreases |es|
  {
    hide Register, Unregister;
    if es != [] {
      match es[0]
      case RegisterRequest(id, conn) =>
        RegisterSize(c, expected, id, conn);
        if |Register(c, expected, id, conn).workers| < expected {
          WaitLoopFills(Register(c, expected, id, conn), expected, es[1..]);
        }
      case LeaveWhileWaiting(id) =>
        UnregisterSize(c, id);
        WaitLoopFills(Unregister(c, id), expected, es[1..]);
      case Interrupted =>
    }
  }

  predicate Fatal(workers: map<string, ConnId>, e: ReceiveEvent) {
    match e
    case UpdateReceived(m) => m.id in workers && m.state != Testing && m.state != Completed
    case Left(_, err) => err
    case Tick => false
    case Cancelled => true
  }

  /** Neither an error, nor an interrupt, nor an update that the coordinator cannot accept. */
  predicate Harmless(workers: map<string, ConnId>, es: seq<ReceiveEvent>)
    decreases |es|
  {
    es != [] ==> !Fatal(workers, es[0]) && Harmless(if es[0].Left? then workers - {es[0].id} else workers, es[1..])
  }

  /** Completed updates from IDs that are still registered when the update is taken off its queue. */
  function Completions(workers: map<string, ConnId>, es: seq<ReceiveEvent>): nat
    decreases |es|
  {
    if es == [] then 0
    else match es[0]
      case UpdateReceived(m) =>
        (if m.id in workers && m.state == Completed then 1 else 0) + Completions(workers, es[1..])
      case Left(id, err) => Completions(workers - {id}, es[1..])
      case _ => Completions(workers, es[1..])
  }

  /** Some harmless prefix of the events holds the completions that are still missing. */
  ghost predicate Suffices(workers: map<string, ConnId>, missing: nat, es: seq<ReceiveEvent>) {
    exists n :: 0 <= n <= |es| && Harmless(workers, es[..n]) && Completions(workers, es[..n]) == missing
  }

  lemma SufficesStep(workers: map<string, ConnId>, missing: nat, es: seq<ReceiveEvent>)
    requires missing > 0 && es != []
    ensures var ws := if es[0].Left? then workers - {es[0].id} else workers;
      var one := if es[0].UpdateReceived? && es[0].msg.id in workers && es[0].msg.state == Completed then 1 else 0;
      Suffices(workers, missing, es) <==> !Fatal(workers, es[0]) && Suffices(ws, missing - one, es[1..])
  {
    var ws := if es[0].Left? then workers - {es[0].id} else workers;
    var one := if es[0].UpdateReceived? && es[0].msg.id in workers && es[0].msg.state == Completed then 1 else 0;
    if Suffices(workers, missing, es) {
      var n :| 0 <= n <= |es| && Harmless(workers, es[..n]) && Completions(workers, es[..n]) == missing;
      assert n > 0;
      assert es[..n][1..] == es[1..][..n - 1];
    }
    if !Fatal(workers, es[0]) && Suffices(ws, missing - one, es[1..]) {
      var n :| 0 <= n <= |es[1..]| && Harmless(ws, es[1..][..n]) && Completions(ws, es[1..][..n]) == missing - one;
      assert es[..n + 1][1..] == es[1..][..n];
    }
  }

  /**
   * The loop succeeds exactly when enough Completed updates of registered IDs arrive before anything fatal does; it
   * then publishes the totals of its maps. It never counts more than it expects.
   */
  lemma {:induction false} ReceiveLoopSucceeds(c: Coord, expected: nat, es: seq<ReceiveEvent>)
    requires c.completed < expected
    ensures var r := ReceiveLoop(c, expected, es);
      && (r.1 == Succeeded <==> Suffices(c.workers, expected - c.completed, es))
      && (r.1 == Succeeded <==> r.0.completed == expected)
      && (r.1 == Succeeded ==> r.0.totalTxs == SumMap(r.0.txsPerWorker) && r.0.totalBytes == SumMap(r.0.bytesPerWorker))
      && r.0.completed <= expected
    decreases |es|
  {
    if es != [] {
      SufficesStep(c.workers, expected - c.completed, es);
      match es[0]
      case UpdateReceived(m) =>
        var c' := Update(c, expected, m);
        match UpdateVerdict(c, expected, m) {
          case Continue => ReceiveLoopSucceeds(c', expected, es[1..]);
          case AllCompleted =>
            assert Harmless(c.workers, es[1..][..0]) && Completions(c.workers, es[1..][..0]) == 0;
          case _ =>
        }
      case Left(id, err) =>
        if !err {
          ReceiveLoopSucceeds(Unregister(c, id), expected, es[1..]);
        }
      case Tick => ReceiveLoopSucceeds(Publish(c), expected, es[1..]);
      case Cancelled =>
    }
  }
}
