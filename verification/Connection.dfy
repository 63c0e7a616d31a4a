/**
 * One connection: the Worker at its far end, the remoteWorker that represents it inside the coordinator, and the two
 * FIFO wires between them. A wire is the list of all frames ever put on it together with how many have been read.
 */
module Connection {
  import opened Basics
  import opened LoadConfig
  import opened ConfigCheck
  import opened CoordinatorModel
  import G = GroupModel

  /** How a socket write ends: acknowledged, failed for good, or reported as failed although the frame gets through. */
  datatype Write = Sent | Lost | SentLate

  datatype WorkerPc = WRegister | WAwaitAccept | WAwaitStart | WConnect | WTesting | WEnded

  datatype RemotePc = RReadId | RRegistering | RWaitStart | RReceiving | RExiting(ok: bool) | RGone(ok: bool)

  datatype Conn = Conn(
    wid: string,                     // the Worker's own ID; it never changes
    w: WorkerPc,
    cfg: Option<Config>,             // the configuration the Worker has accepted
    group: G.Group,                  // its transactor group
    reported: bool,                  // has it issued its Completed message?
    up: seq<WorkerMsg>,              // frames from the Worker to the coordinator
    upRead: nat,
    r: RemotePc,
    rid: string,                     // the ID the remoteWorker has read
    down: seq<WorkerMsg>,            // frames from the coordinator to the Worker
    downRead: nat,
    ctrl: seq<WorkerState>,          // queued control messages
    registered: Option<bool>,        // the coordinator's answer to the registration request
    started: Option<bool>,           // the answer to the control message that starts the load test
    stopped: bool)                   // has the coordinator told the event loop to stop?

  function Open(wid: string): Conn {
    Conn(wid, WRegister, None, G.Start(0), false, [], 0, RReadId, "", [], 0, [], None, None, false)
  }

  function Put(log: seq<WorkerMsg>, m: WorkerMsg, o: Write): seq<WorkerMsg> {
    if o == Lost then log else log + [m]
  }

  function Transactors(cfg: Config): nat
    requires cfg.connections >= 0
  {
    |cfg.endpoints| * cfg.connections
  }

  // ------------------------------------------------------------ steps that touch one connection only

  datatype Step =
    // the Worker
    | Hello(o: Write)
    | ReadReply(o: Write, cancelled: bool)
    | ReplyMissing
    | ReadStart(o: Write)
    | StartCancelled(o: Write)
    | ConnectAll(ok: bool, o: Write)
    | GroupStep(g: G.Step)
    | ReportProgress(o: Write)
    | Finish(o: Write, o2: Write)
    // reads that time out but still swallow a frame
    | DropDown
    | DropUp
    // the remoteWorker
    | NoId(o: Write)
    | Answered(o: Write, o2: Write)
    | RegisterTimeout(o: Write)
    | TakeCtrl(o: Write)
    | Stopped
    | ReadError
    | ReadFailed

  predicate Enabled(cfg: Config, k: Conn, a: Step) {
    && k.upRead <= |k.up| && k.downRead <= |k.down|
    && match a
       case Hello(_) => k.w == WRegister
       case ReadReply(_, _) => k.w == WAwaitAccept && k.downRead < |k.down|
       case ReplyMissing => k.w == WAwaitAccept
       case ReadStart(_) => k.w == WAwaitStart && k.downRead < |k.down|
       case StartCancelled(_) => k.w == WAwaitStart
       case ConnectAll(_, _) => k.w == WConnect && cfg.connections >= 0
       case GroupStep(g) =>
         k.w == WTesting && cfg.size >= 0 && G.Shape(k.group) && G.Enabled(cfg, k.group, g) && !g.MakeReport?
       case ReportProgress(_) => k.w == WTesting && cfg.size >= 0 && G.Shape(k.group) && k.group.pending.Some?
       case Finish(_, _) => k.w == WTesting && G.Waited(k.group)
       case DropDown => k.downRead < |k.down|
       case DropUp => k.upRead < |k.up|
       case NoId(_) => k.r == RReadId
       case Answered(_, _) => k.r == RRegistering && k.registered.Some?
       case RegisterTimeout(_) => k.r == RRegistering
       case TakeCtrl(_) => (k.r == RWaitStart || k.r == RReceiving) && k.ctrl != []
       case Stopped => (k.r == RWaitStart || k.r == RReceiving) && k.stopped
       case ReadError => k.r == RReceiving
       case ReadFailed => k.r == RReceiving && k.upRead < |k.up| && k.up[k.upRead].state == Failed
  }

  /** `Worker.fail` and the end of `Worker.Run`. */
  function Fail(k: Conn, o: Write): Conn {
    k.(w := WEnded, up := Put(k.up, Plain(k.wid, Failed), o))
  }

  function ReportMsg(k: Conn, state: WorkerState, r: G.Report): WorkerMsg {
    WorkerMsg(k.wid, state, r.txs, r.bytes, None)
  }

  function DoReply(k: Conn, o: Write, cancelled: bool): Conn
    requires k.downRead < |k.down|
  {
    var m := k.down[k.downRead];
    var k' := k.(downRead := k.downRead + 1);
    if m.state != Accepted then k'.(w := WEnded)
    else if m.config.None? || Validate(m.config.value).Err? then Fail(k', o)
    else if cancelled then k'.(w := WEnded)
    else k'.(w := WAwaitStart, cfg := m.config)
  }

  function DoStart(k: Conn, o: Write): Conn
    requires k.downRead < |k.down|
  {
    var k' := k.(downRead := k.downRead + 1);
    if k.down[k.downRead].state == Testing then k'.(w := WConnect) else Fail(k', o)
  }

  function DoReport(cfg: Config, k: Conn, o: Write): Conn
    requires cfg.size >= 0 && G.Shape(k.group) && k.group.pending.Some?
  {
    var g := G.Do(cfg, k.group, G.MakeReport);
    var m := ReportMsg(k, Testing, G.Level(k.group));
    k.(up := Put(k.up, m, o), group := if o == Sent then g else G.Do(cfg, g, G.Cancel))
  }

  function DoFinish(k: Conn, o: Write, o2: Write): Conn {
    if k.group.waitErr then Fail(k, o)
    else
      var k' := k.(w := WEnded, reported := true, up := Put(k.up, ReportMsg(k, Completed, G.Level(k.group)), o));
      if o == Sent then k' else Fail(k', o2)
  }

  function Reject(k: Conn, o: Write): Conn {
    k.(r := RExiting(false), down := Put(k.down, Plain("", Rejected), o))
  }

  function DoAnswered(cfg: Config, k: Conn, o: Write, o2: Write): Conn
    requires k.registered.Some?
  {
    if !k.registered.value then Reject(k, o)
    else
      var k' := k.(down := Put(k.down, WorkerMsg(k.rid, Accepted, 0, 0, Some(cfg)), o));
      if o == Sent then k'.(r := RWaitStart) else Reject(k', o2)
  }

  function DoCtrl(k: Conn, o: Write): Conn
    requires k.ctrl != []
  {
    var k' := k.(ctrl := k.ctrl[1..]);
    var s := k.ctrl[0];
    if k.r == RWaitStart then
      k'.(down := Put(k.down, Plain(k.rid, s), o),
          started := if s == Testing then Some(o == Sent) else k.started,
          r := if s == Testing then RReceiving else RExiting(false))
    else if s == Failed then k'.(down := Put(k.down, Plain(k.rid, s), o), r := RExiting(false))
    else k'
  }

  function Do(cfg: Config, k: Conn, a: Step): Conn
    requires Enabled(cfg, k, a)
  {
    match a
    case Hello(o) => k.(w := if o == Sent then WAwaitAccept else WEnded, up := Put(k.up, Plain(k.wid, Unset), o))
    case ReadReply(o, cancelled) => DoReply(k, o, cancelled)
    case ReplyMissing => k.(w := WEnded)
    case ReadStart(o) => DoStart(k, o)
    case StartCancelled(o) => Fail(k, o)
    case ConnectAll(ok, o) => if ok then k.(w := WTesting, group := G.Start(Transactors(cfg))) else Fail(k, o)
    case GroupStep(g) => k.(group := G.Do(cfg, k.group, g))
    case ReportProgress(o) => DoReport(cfg, k, o)
    case Finish(o, o2) => DoFinish(k, o, o2)
    case DropDown => k.(downRead := k.downRead + 1)
    case DropUp => k.(upRead := k.upRead + 1)
    case NoId(o) => k.(r := RExiting(false), down := Put(k.down, Plain("", Failed), o))
    case Answered(o, o2) => DoAnswered(cfg, k, o, o2)
    case RegisterTimeout(o) => Reject(k, o)
    case TakeCtrl(o) => DoCtrl(k, o)
    case Stopped => k.(r := RExiting(false))
    case ReadError => k.(r := RExiting(false))
    case ReadFailed => k.(r := RExiting(false), upRead := k.upRead + 1)
  }

  // ------------------------------------------------------------ what each wire can carry

  predicate IsReport(m: WorkerMsg) {
    m.state == Testing || m.state == Completed
  }

  /** Upwards: the hello first, then progress, then one Completed, and nothing after a Failed. */
  ghost predicate UpLegal(up: seq<WorkerMsg>, wid: string) {
    && (forall i :: 0 <= i < |up| ==> up[i].id == wid && up[i].state in {Unset, Testing, Completed, Failed})
    && (up != [] ==> up[0].state == Unset)
    && (forall i :: 1 <= i < |up| ==> up[i].state != Unset)
    && (forall i :: 0 <= i < |up| - 1 ==> up[i].state != Failed)
    && (forall i, j :: 0 <= i < j < |up| && up[i].state == Completed ==> up[j].state == Failed)
  }

  /** Downwards: Accepted can only come first and Testing only second; nothing follows Rejected or Failed. */
  ghost predicate DownLegal(down: seq<WorkerMsg>, cfg: Config) {
    && (forall i :: 0 <= i < |down| ==> down[i].state in {Accepted, Rejected, Testing, Failed})
    && (forall i :: 0 <= i < |down| && down[i].state == Accepted ==> i == 0 && down[i].config == Some(cfg))
    && (forall i :: 0 <= i < |down| && down[i].state == Testing ==> i == 1 && down[0].state == Accepted)
    && (forall i :: 0 <= i < |down| - 1 ==> down[i].state in {Accepted, Testing})
  }

  ghost predicate HasTesting(k: Conn) {
    |k.down| > 1 && k.down[1].state == Testing
  }

  /** The Worker has started its transactors. */
  predicate Launched(k: Conn) {
    k.group.stats != []
  }

  // ------------------------------------------------------------ the local invariant

  ghost predicate UpOk(k: Conn) {
    && UpLegal(k.up, k.wid)
    && k.upRead <= |k.up|
    && (k.w == WRegister ==> k.up == [])
    && (k.w in {WAwaitAccept, WAwaitStart, WConnect, WTesting} ==>
          k.up != [] && forall i :: 0 <= i < |k.up| ==> k.up[i].state in {Unset, Testing})
    && (!Launched(k) ==> forall i :: 0 <= i < |k.up| ==> !IsReport(k.up[i]))
    && (forall i :: 0 <= i < |k.up| && k.up[i].state == Completed ==>
          k.reported && k.up[i].txCount == G.Totals(k.group).txs && k.up[i].totalTxBytes == G.Totals(k.group).bytes)
  }

  ghost predicate DownOk(cfg: Config, k: Conn) {
    && DownLegal(k.down, cfg)
    && k.downRead <= |k.down|
    && (k.r == RReadId || k.r == RRegistering ==> k.down == [])
    && (k.r == RWaitStart ==> |k.down| == 1 && k.down[0].state == Accepted)
    && (k.r == RReceiving ==> (|k.down| == 1 || HasTesting(k)) && k.down[0].state == Accepted && |k.down| <= 2)
    && (k.started == Some(true) ==> HasTesting(k))
    && (forall i :: 0 <= i < |k.ctrl| ==> k.ctrl[i] == Testing || k.ctrl[i] == Failed)
  }

  ghost predicate RemoteOk(k: Conn) {
    && (k.r in {RRegistering, RWaitStart, RReceiving} ==> k.rid == k.wid && k.upRead >= 1)
    && (k.r == RReadId ==> k.registered.None? && k.started.None?)
  }

  ghost predicate WorkerOk(cfg: Config, k: Conn) {
    && (k.cfg.Some? ==> k.cfg == Some(cfg) && Validate(cfg).Ok?)
    && (k.w in {WAwaitStart, WConnect, WTesting} || Launched(k) ==> k.cfg.Some?)
    && (k.w in {WConnect, WTesting} || Launched(k) ==> HasTesting(k))
    && (k.w == WTesting ==> Launched(k))
    && (k.w !in {WTesting, WEnded} ==> !Launched(k))
    && (Launched(k) ==> G.Inv(cfg, k.group) && cfg.connections >= 0 && |k.group.stats| == Transactors(cfg))
    && (!Launched(k) ==> k.group == G.Start(0))
    && (k.reported ==> k.w == WEnded && Launched(k) && G.Waited(k.group) && !k.group.waitErr)
  }

  ghost predicate ConnOk(cfg: Config, k: Conn) {
    UpOk(k) && DownOk(cfg, k) && RemoteOk(k) && WorkerOk(cfg, k)
  }
}
