/**
 * The whole load test as a labelled transition system: one coordinator, any number of connections, and the three
 * queues between the coordinator and its remoteWorkers. Goroutine interleaving, the choices of `select`, timeouts,
 * lost frames and failing writes are all up to the action that is taken next.
 */
module Protocol {
  import opened Basics
  import opened LoadConfig
  import opened ConfigCheck
  import opened CoordinatorModel
  import opened Connection
  import opened Flow
  import G = GroupModel

  datatype Phase =
    | Waiting                                               // waitForWorkers
    | Starting(todo: set<ConnId>, current: Option<ConnId>)  // startLoadTest; `current` awaits its answer
    | Receiving                                             // receiveTestingUpdates
    | Failing(left: set<ConnId>)                            // failAllRemoteWorkers
    | Finished(ok: bool)

  datatype Leave = Leave(conn: ConnId, id: string, err: bool)

  datatype Update = Update(conn: ConnId, msg: WorkerMsg)

  datatype State = State(
    expected: nat,
    cfg: Config,
    phase: Phase,
    coord: Coord,
    conns: map<ConnId, Conn>,
    registers: seq<ConnId>,
    unregisters: seq<Leave>,
    updates: seq<Update>,
    // history
    roster: map<string, ConnId>,     // the workers map at the moment the load test was started
    counted: set<ConnId>,            // connections whose Completed update was counted
    ignored: set<ConnId>,            // connections whose Completed update was ignored
    deltas: seq<(int, int)>)         // the increments behind the published rates

  datatype Action =
    | Connect(c: ConnId, wid: string)
    | Local(c: ConnId, step: Connection.Step)
    | Request(c: ConnId)             // the remoteWorker has read an ID and asks to be registered
    | Forward(c: ConnId)             // the remoteWorker passes a report on
    | Depart(c: ConnId)              // the event loop's deferred unregister request
    | TakeRegister
    | TakeLeave
    | TakeUpdate
    | Progress
    | Abort                          // timeout, interrupt or web server failure
    | StartOne(c: ConnId)
    | StartAnswered
    | StartTimeout
    | FailOne(c: ConnId)
    | FailDone
    | StopOne(c: ConnId)

  const CTRL_CAPACITY := 3

  function Init(expected: nat, cfg: Config): State {
    State(expected, cfg, Waiting, INIT_COORD, map[], [], [], [], map[], {}, {}, [])
  }

  predicate Possible(s: State, a: Action) {
    match a
    case Connect(c, _) => c !in s.conns
    case Local(c, step) => c in s.conns && Connection.Enabled(s.cfg, s.conns[c], step)
    case Request(c) =>
      c in s.conns && s.conns[c].r == RReadId && s.conns[c].upRead < |s.conns[c].up|
      && s.conns[c].up[s.conns[c].upRead].id != "" && |s.registers| < s.expected
    case Forward(c) =>
      c in s.conns && s.conns[c].r == RReceiving && s.conns[c].upRead < |s.conns[c].up|
      && s.conns[c].up[s.conns[c].upRead].state != Failed && |s.updates| < s.expected
    case Depart(c) => c in s.conns && s.conns[c].r.RExiting? && |s.unregisters| < s.expected
    case TakeRegister => s.phase == Waiting && s.registers != [] && s.registers[0] in s.conns
    case TakeLeave => (s.phase == Waiting || s.phase == Receiving) && s.unregisters != []
    case TakeUpdate => s.phase == Receiving && s.updates != []
    case Progress => s.phase == Receiving
    case Abort => s.phase == Waiting || s.phase == Receiving
    case StartOne(c) =>
      s.phase.Starting? && s.phase.current.None? && c in s.phase.todo && c in s.conns
      && |s.conns[c].ctrl| < CTRL_CAPACITY
    case StartAnswered =>
      s.phase.Starting? && s.phase.current.Some? && s.phase.current.value in s.conns
      && s.conns[s.phase.current.value].started.Some?
    case StartTimeout => s.phase.Starting? && s.phase.current.Some?
    case FailOne(c) => s.phase.Failing? && c in s.phase.left && c in s.conns && |s.conns[c].ctrl| < CTRL_CAPACITY
    case FailDone => s.phase.Failing? && s.phase.left == {}
    case StopOne(c) => s.phase.Finished? && c in s.coord.workers.Values && c in s.conns
  }

  function Abandon(s: State): State {
    s.(phase := Failing(s.coord.workers.Values))
  }

  function SetConn(s: State, c: ConnId, k: Conn): State {
    s.(conns := s.conns[c := k])
  }

  function DoRequest(s: State, c: ConnId): State
    requires Possible(s, Request(c))
  {
    SetConn(s, c, TakeId(s.conns[c])).(registers := s.registers + [c])
  }

  function DoForwardOne(s: State, c: ConnId): State
    requires Possible(s, Forward(c))
  {
    var k := s.conns[c];
    SetConn(s, c, DoForward(k)).(updates := s.updates + [Update(c, k.up[k.upRead])])
  }

  function DoDepart(s: State, c: ConnId): State
    requires Possible(s, Depart(c))
  {
    var k := s.conns[c];
    SetConn(s, c, k.(r := RGone(k.r.ok))).(unregisters := s.unregisters + [Leave(c, k.rid, !k.r.ok)])
  }

  function DoTakeRegister(s: State): State
    requires Possible(s, TakeRegister)
  {
    var c := s.registers[0];
    var k := s.conns[c];
    var ok := RegisterAnswer(s.coord, s.expected, k.rid) == Registered;
    var s' := SetConn(s, c, k.(registered := Some(ok)))
                .(registers := s.registers[1..], coord := Register(s.coord, s.expected, k.rid, c));
    if |s'.coord.workers| >= s.expected then
      s'.(roster := s'.coord.workers, phase := Starting(s'.coord.workers.Values, None))
    else s'
  }

  function DoTakeLeave(s: State): State
    requires Possible(s, TakeLeave)
  {
    var l := s.unregisters[0];
    var s' := s.(unregisters := s.unregisters[1..], coord := Unregister(s.coord, l.id));
    if s.phase == Receiving && l.err then Abandon(s') else s'
  }

  /** Publishing the totals, together with the increments the published rates are computed from. */
  ghost function PublishDeltas(c: Coord, deltas: seq<(int, int)>): seq<(int, int)> {
    deltas + [(SumMap(c.txsPerWorker) - c.totalTxs, SumMap(c.bytesPerWorker) - c.totalBytes)]
  }

  ghost function DoTakeUpdate(s: State): State
    requires Possible(s, TakeUpdate)
  {
    var u := s.updates[0];
    var known := u.msg.id in s.coord.workers;
    var done := u.msg.state == Completed;
    var verdict := UpdateVerdict(s.coord, s.expected, u.msg);
    var s' := s.(updates := s.updates[1..],
                 coord := CoordinatorModel.Update(s.coord, s.expected, u.msg),
                 counted := if known && done then s.counted + {u.conn} else s.counted,
                 ignored := if !known && done then s.ignored + {u.conn} else s.ignored,
                 deltas := if verdict == AllCompleted then PublishDeltas(Record(s.coord, u.msg), s.deltas) else s.deltas);
    match verdict
    case Continue => s'
    case AllCompleted => s'.(phase := Finished(true))
    case _ => Abandon(s')
  }

  function Send(s: State, c: ConnId, w: WorkerState): State
    requires c in s.conns
  {
    SetConn(s, c, s.conns[c].(ctrl := s.conns[c].ctrl + [w]))
  }

  function DoStartAnswered(s: State): State
    requires Possible(s, StartAnswered)
  {
    var c := s.phase.current.value;
    if !s.conns[c].started.value then Abandon(s)
    else if s.phase.todo - {c} == {} then s.(phase := Receiving)
    else s.(phase := Starting(s.phase.todo - {c}, None))
  }

  ghost function Next(s: State, a: Action): State
    requires Possible(s, a)
  {
    match a
    case Connect(c, wid) => SetConn(s, c, Open(wid))
    case Local(c, step) => SetConn(s, c, Connection.Do(s.cfg, s.conns[c], step))
    case Request(c) => DoRequest(s, c)
    case Forward(c) => DoForwardOne(s, c)
    case Depart(c) => DoDepart(s, c)
    case TakeRegister => DoTakeRegister(s)
    case TakeLeave => DoTakeLeave(s)
    case TakeUpdate => DoTakeUpdate(s)
    case Progress => s.(coord := Publish(s.coord), deltas := PublishDeltas(s.coord, s.deltas))
    case Abort => Abandon(s)
    case StartOne(c) => Send(s, c, Testing).(phase := Starting(s.phase.todo, Some(c)))
    case StartAnswered => DoStartAnswered(s)
    case StartTimeout => Abandon(s)
    case FailOne(c) => Send(s, c, Failed).(phase := Failing(s.phase.left - {c}))
    case FailDone => s.(phase := Finished(false))
    case StopOne(c) => SetConn(s, c, s.conns[c].(stopped := true))
  }

  // ------------------------------------------------------------ runs

  ghost predicate Follows(s: State, s': State) {
    exists a :: Possible(s, a) && s' == Next(s, a)
  }

  ghost predicate IsRun(expected: nat, cfg: Config, run: seq<State>) {
    && run != [] && run[0] == Init(expected, cfg)
    && forall i :: 0 <= i < |run| - 1 ==> Follows(run[i], run[i + 1])
  }

  // ------------------------------------------------------------ the invariant

  /** The queued updates of one connection, oldest first. */
  function Queued(us: seq<Update>, c: ConnId): seq<WorkerMsg> {
    if us == [] then [] else (if us[0].conn == c then [us[0].msg] else []) + Queued(us[1..], c)
  }

  function Recorded(txs: map<string, nat>, bytes: map<string, nat>, id: string): G.Report
    requires id in txs && id in bytes
  {
    G.Report(txs[id], bytes[id])
  }

  /** Where connection `c` stands: either never started, or with its reports flowing into the coordinator's totals. */
  ghost predicate Placed(k: Conn, c: ConnId, txs: map<string, nat>, bytes: map<string, nat>, us: seq<Update>,
                         roster: map<string, ConnId>, counted: bool, ignored: bool) {
    if c in roster.Values then
      && k.wid in roster && roster[k.wid] == c && k.wid in txs && k.wid in bytes
      && Flowing(k, Recorded(txs, bytes, k.wid), Queued(us, c), counted, ignored)
    else
      Idle(k) && Queued(us, c) == []
  }

  ghost predicate ConnsOk(cfg: Config, conns: map<ConnId, Conn>, txs: map<string, nat>, bytes: map<string, nat>,
                          us: seq<Update>, roster: map<string, ConnId>, counted: set<ConnId>, ignored: set<ConnId>) {
    forall c :: c in conns ==>
      ConnOk(cfg, conns[c]) && Placed(conns[c], c, txs, bytes, us, roster, c in counted, c in ignored)
  }

  /** Every ID in the map stands for a connection whose Worker really has that ID. */
  ghost predicate Named(m: map<string, ConnId>, conns: map<ConnId, Conn>) {
    forall id :: id in m ==> m[id] in conns && Identified(conns[m[id]]) && conns[m[id]].wid == id
  }

  ghost predicate RegistersOk(registers: seq<ConnId>, conns: map<ConnId, Conn>) {
    forall i :: 0 <= i < |registers| ==> registers[i] in conns && Identified(conns[registers[i]])
  }

  /** An unregister request without an error comes only after the Completed report has been passed on. */
  ghost predicate LeavesOk(leaves: seq<Leave>, conns: map<ConnId, Conn>) {
    forall i :: 0 <= i < |leaves| ==>
      && leaves[i].conn in conns && Gone(conns[leaves[i].conn])
      && leaves[i].id == conns[leaves[i].conn].rid
      && (!leaves[i].err ==> Forwarded(conns[leaves[i].conn]))
  }

  ghost predicate UpdatesOk(us: seq<Update>, roster: map<string, ConnId>) {
    forall i :: 0 <= i < |us| ==> us[i].conn in roster.Values
  }

  ghost predicate StartedAll(conns: map<ConnId, Conn>, cs: set<ConnId>) {
    forall c :: c in cs ==> c in conns && conns[c].started == Some(true)
  }

  ghost predicate PhaseOk(phase: Phase, conns: map<ConnId, Conn>, workers: map<string, ConnId>,
                          roster: map<string, ConnId>, expected: nat) {
    && expected >= 1
    && (phase == Waiting ==> roster == map[] && |workers| < expected)
    && (roster != map[] ==> |roster| == expected)
    && (phase == Receiving || phase.Starting? || phase == Finished(true) ==> roster != map[])
    && (roster != map[] ==> forall id :: id in workers ==> id in roster && roster[id] == workers[id])
    && (phase.Starting? ==>
          && workers == roster && phase.todo <= roster.Values
          && (phase.current.Some? ==> phase.current.value in phase.todo)
          && StartedAll(conns, roster.Values - phase.todo))
    && (phase == Receiving || phase == Finished(true) ==> StartedAll(conns, roster.Values))
  }

  ghost predicate TotalsOk(coord: Coord, roster: map<string, ConnId>, finished: bool) {
    && coord.txsPerWorker.Keys == coord.bytesPerWorker.Keys
    && coord.workers.Keys <= coord.txsPerWorker.Keys
    && (forall id :: id in coord.txsPerWorker && id !in roster ==>
          coord.txsPerWorker[id] == 0 && coord.bytesPerWorker[id] == 0)
    && coord.totalTxs <= SumMap(coord.txsPerWorker)
    && coord.totalBytes <= SumMap(coord.bytesPerWorker)
    && (finished ==> coord.totalTxs == SumMap(coord.txsPerWorker) && coord.totalBytes == SumMap(coord.bytesPerWorker))
  }

  ghost predicate CountsOk(expected: nat, completed: nat, finished: bool, counted: set<ConnId>, ignored: set<ConnId>,
                           roster: map<string, ConnId>) {
    && counted <= roster.Values && ignored <= roster.Values
    && completed == |counted|
    && (if finished then completed == expected else completed < expected)
  }

  ghost predicate IgnoredOk(ignored: set<ConnId>, conns: map<ConnId, Conn>, workers: map<string, ConnId>) {
    forall c :: c in ignored ==> c in conns && conns[c].wid !in workers
  }

  ghost function SumTxs(ds: seq<(int, int)>): int {
    if ds == [] then 0 else SumTxs(ds[..|ds| - 1]) + ds[|ds| - 1].0
  }

  ghost function SumBytes(ds: seq<(int, int)>): int {
    if ds == [] then 0 else SumBytes(ds[..|ds| - 1]) + ds[|ds| - 1].1
  }

  ghost predicate DeltasOk(ds: seq<(int, int)>, totalTxs: nat, totalBytes: nat) {
    && (forall i :: 0 <= i < |ds| ==> ds[i].0 >= 0 && ds[i].1 >= 0)
    && SumTxs(ds) == totalTxs && SumBytes(ds) == totalBytes
  }

  ghost predicate Inv(s: State) {
    && ConnsOk(s.cfg, s.conns, s.coord.txsPerWorker, s.coord.bytesPerWorker, s.updates, s.roster, s.counted, s.ignored)
    && RegistersOk(s.registers, s.conns) && LeavesOk(s.unregisters, s.conns) && UpdatesOk(s.updates, s.roster)
    && PhaseOk(s.phase, s.conns, s.coord.workers, s.roster, s.expected)
    && TotalsOk(s.coord, s.roster, s.phase == Finished(true))
    && CountsOk(s.expected, s.coord.completed, s.phase == Finished(true), s.counted, s.ignored, s.roster)
    && IgnoredOk(s.ignored, s.conns, s.coord.workers)
    && DeltasOk(s.deltas, s.coord.totalTxs, s.coord.totalBytes)
    && Named(s.coord.workers, s.conns) && Named(s.roster, s.conns)
  }
}
