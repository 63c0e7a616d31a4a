/**
 * How a worker's reports travel: from its group, over the upward wire, through the coordinator's update queue, into
 * the coordinator's totals. The reports in flight, oldest first, always form a chain between the total recorded last
 * and the level below which the group can no longer report.
 */
module Flow {
  import opened Basics
  import opened LoadConfig
  import opened ConfigCheck
  import opened CoordinatorModel
  import opened Connection
  import opened ConnectionProofs
  import G = GroupModel

  function Rep(m: WorkerMsg): G.Report {
    G.Report(m.txCount, m.totalTxBytes)
  }

  /** The progress and completion reports among a list of frames. */
  function Reports(ms: seq<WorkerMsg>): seq<WorkerMsg> {
    if ms == [] then [] else (if IsReport(ms[0]) then [ms[0]] else []) + Reports(ms[1..])
  }

  lemma {:induction false} ReportsAppend(ms: seq<WorkerMsg>, m: WorkerMsg)
    ensures Reports(ms + [m]) == Reports(ms) + (if IsReport(m) then [m] else [])
  {
    if ms == [] {
      assert ms + [m] == [m];
    } else {
      var rest := ms[1..];
      assert ms + [m] == [ms[0]] + (rest + [m]);
      ReportsCons(ms[0], rest + [m]);
      ReportsAppend(rest, m);
    }
  }

  lemma ReportsCons(m: WorkerMsg, ms: seq<WorkerMsg>)
    ensures Reports([m] + ms) == (if IsReport(m) then [m] else []) + Reports(ms)
  {
    assert ([m] + ms)[1..] == ms;
  }

  lemma {:induction false} NoReports(ms: seq<WorkerMsg>)
    requires forall i :: 0 <= i < |ms| ==> !IsReport(ms[i])
    ensures Reports(ms) == []
  {
    if ms != [] {
      NoReports(ms[1..]);
    }
  }

  /** The worker's reports that the remoteWorker has not read yet. */
  function Unread(k: Conn): seq<WorkerMsg> {
    if k.upRead <= |k.up| then Reports(k.up[k.upRead..]) else []
  }

  ghost predicate Chain(base: G.Report, ms: seq<WorkerMsg>, top: G.Report) {
    && G.Below(base, top)
    && (forall i :: 0 <= i < |ms| ==> G.Below(base, Rep(ms[i])) && G.Below(Rep(ms[i]), top))
    && (forall i, j :: 0 <= i < j < |ms| ==> G.Below(Rep(ms[i]), Rep(ms[j])))
  }

  lemma ChainGrow(base: G.Report, ms: seq<WorkerMsg>, top: G.Report, m: WorkerMsg, top': G.Report)
    requires Chain(base, ms, top) && G.Below(top, Rep(m)) && G.Below(Rep(m), top')
    ensures Chain(base, ms + [m], top')
  {
  }

  lemma ChainRaise(base: G.Report, ms: seq<WorkerMsg>, top: G.Report, top': G.Report)
    requires Chain(base, ms, top) && G.Below(top, top')
    ensures Chain(base, ms, top')
  {
  }

  /** A frame may be lost anywhere on the way. */
  lemma ChainLose(base: G.Report, q: seq<WorkerMsg>, ms: seq<WorkerMsg>, top: G.Report)
    requires Chain(base, q + ms, top) && ms != []
    ensures Chain(base, q + ms[1..], top)
  {
    var l, l' := q + ms, q + ms[1..];
    var at := (i: int) => if i < |q| then i else i + 1;
    forall i | 0 <= i < |l'| ensures G.Below(base, Rep(l'[i])) && G.Below(Rep(l'[i]), top) {
      assert l'[i] == l[at(i)];
    }
    forall i, j | 0 <= i < j < |l'| ensures G.Below(Rep(l'[i]), Rep(l'[j])) {
      assert l'[i] == l[at(i)] && l'[j] == l[at(j)];
    }
  }

  /** The oldest report is taken off: it becomes the new base if it is recorded. */
  lemma ChainTake(base: G.Report, ms: seq<WorkerMsg>, top: G.Report)
    requires Chain(base, ms, top) && ms != []
    ensures Chain(base, ms[1..], top) && Chain(Rep(ms[0]), ms[1..], top)
  {
  }

  lemma ChainHead(base: G.Report, ms: seq<WorkerMsg>, top: G.Report)
    requires Chain(base, ms, top) && ms != []
    ensures G.Below(base, Rep(ms[0]))
  {
  }

  // ------------------------------------------------------------ the flow of one started connection

  /** The remoteWorker has passed the worker's Completed report on to the coordinator. */
  predicate Forwarded(k: Conn) {
    k.r == RExiting(true) || k.r == RGone(true)
  }

  /** The Completed report has made it over the upward wire. */
  ghost predicate Delivered(k: Conn) {
    exists i :: 0 <= i < k.upRead && i < |k.up| && k.up[i].state == Completed
  }

  ghost predicate CompletedLast(q: seq<WorkerMsg>) {
    q != [] && q[|q| - 1].state == Completed
  }

  /**
   * `base` is what the coordinator has recorded for this worker, `q` its queued updates, and `counted` and `ignored`
   * say what became of its Completed update once that was dequeued.
   */
  ghost predicate Flowing(k: Conn, base: G.Report, q: seq<WorkerMsg>, counted: bool, ignored: bool) {
    && (forall i :: 0 <= i < |q| ==> q[i].id == k.wid && IsReport(q[i]))
    && (forall i :: 0 <= i < |q| - 1 ==> q[i].state == Testing)
    && Chain(base, q + Unread(k), G.Level(k.group))
    && (Forwarded(k) <==> counted || ignored || CompletedLast(q))
    && !(counted && ignored)
    && (counted || ignored ==> q == [])
    && (Forwarded(k) ==> k.reported && Unread(k) == [] && Delivered(k))
    && (CompletedLast(q) ==> Rep(q[|q| - 1]) == G.Totals(k.group))
    && (counted ==> base == G.Totals(k.group))
  }

  /** A connection that the coordinator has not started. */
  ghost predicate Idle(k: Conn) {
    Testing !in k.ctrl && k.r != RReceiving && !HasTesting(k) && k.started.None? && !Forwarded(k)
  }

  lemma IdleFlows(cfg: Config, k: Conn)
    requires ConnOk(cfg, k) && Idle(k)
    ensures Flowing(k, G.Report(0, 0), [], false, false)
  {
    assert !Launched(k);
    NoReports(k.up[k.upRead..]);
    assert [] + Unread(k) == [];
  }

  // ------------------------------------------------------------ local steps and the flow

  lemma PutUnread(k: Conn, m: WorkerMsg, o: Write)
    requires k.upRead <= |k.up|
    ensures var k' := k.(up := Put(k.up, m, o));
      Unread(k') == Unread(k) + (if o != Lost && IsReport(m) then [m] else [])
  {
    if o != Lost {
      assert (k.up + [m])[k.upRead..] == k.up[k.upRead..] + [m];
      ReportsAppend(k.up[k.upRead..], m);
    }
  }

  /** Steps that neither add reports nor touch the group or the forwarding state. */
  lemma QuietFlow(k: Conn, k': Conn, base: G.Report, q: seq<WorkerMsg>, counted: bool, ignored: bool)
    requires Flowing(k, base, q, counted, ignored)
    requires k'.wid == k.wid && k'.group == k.group && Forwarded(k') == Forwarded(k) && Unread(k') == Unread(k)
    requires k.reported == k'.reported && k.up <= k'.up && k.upRead <= k'.upRead
    ensures Flowing(k', base, q, counted, ignored)
  {
  }

  lemma FailFlow(k: Conn, o: Write, base: G.Report, q: seq<WorkerMsg>, counted: bool, ignored: bool)
    requires Flowing(k, base, q, counted, ignored) && k.upRead <= |k.up|
    ensures Flowing(Fail(k, o), base, q, counted, ignored)
  {
    PutUnread(k, Plain(k.wid, Failed), o);
    QuietFlow(k, Fail(k, o), base, q, counted, ignored);
  }

  lemma WorkerTalking(cfg: Config, k: Conn)
    requires ConnOk(cfg, k) && k.w != WEnded
    ensures !k.reported && k.upRead <= |k.up|
  {
  }

  lemma GroupFlow(cfg: Config, k: Conn, g: G.Step, base: G.Report, q: seq<WorkerMsg>, counted: bool, ignored: bool)
    requires ConnOk(cfg, k) && Enabled(cfg, k, GroupStep(g)) && Flowing(k, base, q, counted, ignored)
    ensures Flowing(Do(cfg, k, GroupStep(g)), base, q, counted, ignored)
  {
    hide Chain, G.Do, G.Enabled;
    WorkerTalking(cfg, k);
    hide ConnOk;
    GroupOk(cfg, k, g);
    ChainRaise(base, q + Unread(k), G.Level(k.group), G.Level(Do(cfg, k, GroupStep(g)).group));
  }

  /** A report is written that is at least as high as all before it. */
  lemma TalkFlow(k: Conn, k': Conn, m: WorkerMsg, o: Write, base: G.Report, q: seq<WorkerMsg>, counted: bool, ignored: bool)
    requires Flowing(k, base, q, counted, ignored) && !Forwarded(k) && k.upRead <= |k.up| && IsReport(m)
    requires k'.wid == k.wid && k'.up == Put(k.up, m, o) && k'.upRead == k.upRead && k'.r == k.r
    requires G.Below(G.Level(k.group), Rep(m)) && G.Below(Rep(m), G.Level(k'.group))
    ensures Flowing(k', base, q, counted, ignored)
  {
    hide Put, G.Level, G.Totals, Delivered;
    PutUnread(k, m, o);
    assert Unread(k') == Unread(k.(up := Put(k.up, m, o)));
    hide Unread;
    if o == Lost {
      ChainRaise(base, q + Unread(k), G.Level(k.group), G.Level(k'.group));
      assert Unread(k') == Unread(k);
    } else {
      ChainGrow(base, q + Unread(k), G.Level(k.group), m, G.Level(k'.group));
      assert q + Unread(k') == q + Unread(k) + [m];
    }
    assert Chain(base, q + Unread(k'), G.Level(k'.group));
    hide Chain;
  }

  lemma NotForwarded(k: Conn, base: G.Report, q: seq<WorkerMsg>, counted: bool, ignored: bool)
    requires Flowing(k, base, q, counted, ignored) && !k.reported
    ensures !Forwarded(k)
  {
    hide Chain;
  }

  lemma ReportFlow(cfg: Config, k: Conn, o: Write, base: G.Report, q: seq<WorkerMsg>, counted: bool, ignored: bool)
    requires ConnOk(cfg, k) && Enabled(cfg, k, ReportProgress(o)) && Flowing(k, base, q, counted, ignored)
    ensures Flowing(DoReport(cfg, k, o), base, q, counted, ignored)
  {
    hide G.Do, G.Level, Flowing, ConnOk, Put;
    WorkerTalking(cfg, k);
    ReportOk(cfg, k, o);
    NotForwarded(k, base, q, counted, ignored);
    TalkFlow(k, DoReport(cfg, k, o), ReportMsg(k, Testing, G.Level(k.group)), o, base, q, counted, ignored);
  }

  lemma FinishFlow(cfg: Config, k: Conn, o: Write, o2: Write, base: G.Report, q: seq<WorkerMsg>, counted: bool, ignored: bool)
    requires ConnOk(cfg, k) && Enabled(cfg, k, Finish(o, o2)) && Flowing(k, base, q, counted, ignored)
    ensures Flowing(DoFinish(k, o, o2), base, q, counted, ignored)
  {
    hide Chain, G.Level, G.Totals;
    WorkerTalking(cfg, k);
    hide ConnOk;
    hide Flowing, Put;
    if k.group.waitErr {
      FailFlow(k, o, base, q, counted, ignored);
    } else {
      CompleteFlow(k, o, base, q, counted, ignored);
      if o != Sent {
        FailFlow(Complete(k, o), o2, base, q, counted, ignored);
      }
    }
  }

  function Complete(k: Conn, o: Write): Conn {
    k.(w := WEnded, reported := true, up := Put(k.up, ReportMsg(k, Completed, G.Level(k.group)), o))
  }

  lemma CompleteFlow(k: Conn, o: Write, base: G.Report, q: seq<WorkerMsg>, counted: bool, ignored: bool)
    requires Flowing(k, base, q, counted, ignored) && k.upRead <= |k.up| && !k.reported
    ensures Flowing(Complete(k, o), base, q, counted, ignored) && Complete(k, o).upRead <= |Complete(k, o).up|
  {
    hide Flowing, G.Level, Put;
    NotForwarded(k, base, q, counted, ignored);
    TalkFlow(k, Complete(k, o), ReportMsg(k, Completed, G.Level(k.group)), o, base, q, counted, ignored);
    assert |k.up| <= |Put(k.up, ReportMsg(k, Completed, G.Level(k.group)), o)| by {
      PutLonger(k.up, ReportMsg(k, Completed, G.Level(k.group)), o);
    }
  }

  lemma PutLonger(log: seq<WorkerMsg>, m: WorkerMsg, o: Write)
    ensures |log| <= |Put(log, m, o)|
  {
  }

  lemma ConnectFlow(cfg: Config, k: Conn, ok: bool, o: Write, base: G.Report, q: seq<WorkerMsg>, counted: bool, ignored: bool)
    requires ConnOk(cfg, k) && Enabled(cfg, k, ConnectAll(ok, o)) && Flowing(k, base, q, counted, ignored)
    ensures Flowing(Do(cfg, k, ConnectAll(ok, o)), base, q, counted, ignored)
  {
    if ok {
      var n := Transactors(cfg);
      G.SumZeros(n);
      assert G.Level(k.group) == G.Report(0, 0) && G.Level(G.Start(n)) == G.Report(0, 0);
      var k' := Do(cfg, k, ConnectAll(ok, o));
      assert Unread(k') == Unread(k);
    } else {
      FailFlow(k, o, base, q, counted, ignored);
    }
  }

  lemma HelloFlow(cfg: Config, k: Conn, o: Write, base: G.Report, q: seq<WorkerMsg>, counted: bool, ignored: bool)
    requires ConnOk(cfg, k) && Enabled(cfg, k, Hello(o)) && Flowing(k, base, q, counted, ignored)
    ensures Flowing(Do(cfg, k, Hello(o)), base, q, counted, ignored)
  {
    hide Flowing, ConnOk;
    PutUnread(k, Plain(k.wid, Unset), o);
    QuietFlow(k, Do(cfg, k, Hello(o)), base, q, counted, ignored);
  }

  /** Taking the next frame off the upward wire without passing it on. */
  lemma SkipFlow(k: Conn, k': Conn, base: G.Report, q: seq<WorkerMsg>, counted: bool, ignored: bool)
    requires Flowing(k, base, q, counted, ignored) && k.upRead < |k.up|
    requires k'.wid == k.wid && k'.group == k.group && Forwarded(k') == Forwarded(k) && k'.up == k.up
    requires k'.upRead == k.upRead + 1 && k'.reported == k.reported
    ensures Flowing(k', base, q, counted, ignored)
  {
    assert k.up[k.upRead..][1..] == k'.up[k'.upRead..];
    if IsReport(k.up[k.upRead]) {
      assert Unread(k)[1..] == Unread(k');
      ChainLose(base, q, Unread(k), G.Level(k.group));
    } else {
      assert Unread(k) == Unread(k');
    }
  }

  /** The far end, the group and the reading position are untouched, and nothing is forwarded. */
  ghost predicate Quiet(k: Conn, k': Conn) {
    && k'.wid == k.wid && k'.group == k.group && k'.up == k.up && k'.upRead == k.upRead && k'.reported == k.reported
    && Forwarded(k') == Forwarded(k)
  }

  predicate RemoteStep(a: Step) {
    a.NoId? || a.Answered? || a.RegisterTimeout? || a.TakeCtrl? || a.Stopped? || a.ReadError? || a.DropDown? || a.ReplyMissing?
  }

  lemma RemoteQuiet(cfg: Config, k: Conn, a: Step)
    requires Enabled(cfg, k, a) && RemoteStep(a)
    ensures Quiet(k, Do(cfg, k, a))
  {
    hide DoReport, DoFinish, DoReply, DoStart, Fail, G.Do, G.Enabled, G.Shape;
  }

  predicate WorkerStep(a: Step) {
    !RemoteStep(a) && !a.DropUp? && !a.ReadFailed?
  }

  lemma WorkerFlow(cfg: Config, k: Conn, a: Step, base: G.Report, q: seq<WorkerMsg>, counted: bool, ignored: bool)
    requires ConnOk(cfg, k) && Enabled(cfg, k, a) && WorkerStep(a) && Flowing(k, base, q, counted, ignored)
    ensures Flowing(Do(cfg, k, a), base, q, counted, ignored)
  {
    hide ConnOk, Flowing, DoReport, DoFinish, DoReply, DoStart;
    match a
    case Hello(o) => HelloFlow(cfg, k, o, base, q, counted, ignored);
    case ReadReply(o, cancelled) => ReplyFlow(cfg, k, o, cancelled, base, q, counted, ignored);
    case ReadStart(o) => StartFlow(cfg, k, o, base, q, counted, ignored);
    case StartCancelled(o) => FailFlow(k, o, base, q, counted, ignored);
    case ConnectAll(ok, o) => ConnectFlow(cfg, k, ok, o, base, q, counted, ignored);
    case GroupStep(g) => GroupFlow(cfg, k, g, base, q, counted, ignored);
    case ReportProgress(o) => ReportFlow(cfg, k, o, base, q, counted, ignored);
    case Finish(o, o2) => FinishFlow(cfg, k, o, o2, base, q, counted, ignored);
  }

  lemma RemoteFlow(cfg: Config, k: Conn, a: Step, base: G.Report, q: seq<WorkerMsg>, counted: bool, ignored: bool)
    requires Enabled(cfg, k, a) && RemoteStep(a) && Flowing(k, base, q, counted, ignored)
    ensures Flowing(Do(cfg, k, a), base, q, counted, ignored)
  {
    hide Flowing, Enabled, Do, Forwarded;
    RemoteQuiet(cfg, k, a);
    QuietFlow(k, Do(cfg, k, a), base, q, counted, ignored);
  }

  lemma StepFlow(cfg: Config, k: Conn, a: Step, base: G.Report, q: seq<WorkerMsg>, counted: bool, ignored: bool)
    requires ConnOk(cfg, k) && Enabled(cfg, k, a) && Flowing(k, base, q, counted, ignored)
    ensures Flowing(Do(cfg, k, a), base, q, counted, ignored)
  {
    hide ConnOk, Flowing, Enabled, Do;
    if RemoteStep(a) {
      RemoteFlow(cfg, k, a, base, q, counted, ignored);
    } else if WorkerStep(a) {
      WorkerFlow(cfg, k, a, base, q, counted, ignored);
    } else {
      DropFlow(cfg, k, a, base, q, counted, ignored);
    }
  }

  lemma DropFlow(cfg: Config, k: Conn, a: Step, base: G.Report, q: seq<WorkerMsg>, counted: bool, ignored: bool)
    requires Enabled(cfg, k, a) && (a.DropUp? || a.ReadFailed?) && Flowing(k, base, q, counted, ignored)
    ensures Flowing(Do(cfg, k, a), base, q, counted, ignored)
  {
    var k' := Do(cfg, k, a);
    assert k'.group == k.group && k'.wid == k.wid && Forwarded(k') == Forwarded(k);
    SkipFlow(k, k', base, q, counted, ignored);
  }

  lemma StartFlow(cfg: Config, k: Conn, o: Write, base: G.Report, q: seq<WorkerMsg>, counted: bool, ignored: bool)
    requires ConnOk(cfg, k) && Enabled(cfg, k, ReadStart(o)) && Flowing(k, base, q, counted, ignored)
    ensures Flowing(DoStart(k, o), base, q, counted, ignored)
  {
    hide Flowing, ConnOk, Fail, Put;
    WorkerTalking(cfg, k);
    var k' := k.(downRead := k.downRead + 1);
    if k.down[k.downRead].state == Testing {
      QuietFlow(k, k'.(w := WConnect), base, q, counted, ignored);
    } else {
      QuietFlow(k, k', base, q, counted, ignored);
      FailFlow(k', o, base, q, counted, ignored);
    }
  }

  lemma ReplyFlow(cfg: Config, k: Conn, o: Write, cancelled: bool, base: G.Report, q: seq<WorkerMsg>, counted: bool, ignored: bool)
    requires ConnOk(cfg, k) && Enabled(cfg, k, ReadReply(o, cancelled)) && Flowing(k, base, q, counted, ignored)
    ensures Flowing(DoReply(k, o, cancelled), base, q, counted, ignored)
  {
    hide Flowing, Validate;
    WorkerTalking(cfg, k);
    hide ConnOk;
    var k' := k.(downRead := k.downRead + 1);
    var r := DoReply(k, o, cancelled);
    assert Quiet(k, r) || r == Fail(k', o);
    if Quiet(k, r) {
      assert Unread(r) == Unread(k);
      QuietFlow(k, r, base, q, counted, ignored);
    } else {
      assert Unread(k') == Unread(k);
      QuietFlow(k, k', base, q, counted, ignored);
      FailFlow(k', o, base, q, counted, ignored);
    }
  }

  /** What the coordinator may remember about a connection, whatever that connection does next. */
  ghost predicate Stable(k: Conn, k': Conn) {
    && k'.wid == k.wid
    && (Identified(k) ==> Identified(k') && k'.rid == k.rid)
    && (k.started == Some(true) ==> k'.started == Some(true))
    && (Forwarded(k) ==> Forwarded(k'))
    && (Gone(k) ==> Gone(k') && k'.rid == k.rid)
  }

  ghost predicate Identified(k: Conn) {
    k.rid == k.wid && k.r != RReadId
  }

  /** The event loop has left, or is about to; its ID is final. */
  predicate Gone(k: Conn) {
    k.r.RExiting? || k.r.RGone?
  }

  lemma WorkerKeepsRemote(cfg: Config, k: Conn, a: Step)
    requires Enabled(cfg, k, a) && !RemoteStep(a) && !a.ReadFailed?
    ensures Do(cfg, k, a).wid == k.wid && Do(cfg, k, a).r == k.r && Do(cfg, k, a).rid == k.rid
    ensures Do(cfg, k, a).started == k.started && Do(cfg, k, a).ctrl == k.ctrl && Do(cfg, k, a).down == k.down
  {
    hide G.Do, G.Enabled, G.Shape, G.Start, G.Level, Put, Validate, DoAnswered, DoCtrl, Reject;
  }

  lemma IdleCtrl(k: Conn, o: Write)
    requires Idle(k) && k.ctrl != [] && k.r == RWaitStart && |k.down| == 1
    requires k.ctrl[0] == Failed
    ensures Idle(DoCtrl(k, o))
  {
  }

  lemma RemoteIdle(cfg: Config, k: Conn, a: Step)
    requires DownOk(cfg, k) && Enabled(cfg, k, a) && RemoteStep(a) && Idle(k)
    ensures Idle(Do(cfg, k, a))
  {
    if a.TakeCtrl? {
      assert k.ctrl[0] in k.ctrl;
      IdleCtrl(k, a.o);
    }
  }

  /** A connection that nobody has started cannot start itself. */
  lemma StepIdle(cfg: Config, k: Conn, a: Step)
    requires ConnOk(cfg, k) && Enabled(cfg, k, a) && Idle(k)
    ensures Idle(Do(cfg, k, a))
  {
    if RemoteStep(a) {
      RemoteIdle(cfg, k, a);
    } else if !a.ReadFailed? {
      WorkerKeepsRemote(cfg, k, a);
    }
  }

  lemma StepStable(cfg: Config, k: Conn, a: Step)
    requires ConnOk(cfg, k) && Enabled(cfg, k, a)
    ensures Stable(k, Do(cfg, k, a))
  {
    if RemoteStep(a) || a.ReadFailed? {
      RemoteStable(cfg, k, a);
    } else {
      WorkerKeepsRemote(cfg, k, a);
    }
  }

  lemma RemoteStable(cfg: Config, k: Conn, a: Step)
    requires Enabled(cfg, k, a) && (RemoteStep(a) || a.ReadFailed?) && DownOk(cfg, k)
    ensures Stable(k, Do(cfg, k, a))
  {
    hide G.Do, G.Enabled, G.Shape, DownLegal, DoReport, DoFinish, DoReply, DoStart, Fail, Put;
    assert k.r == RWaitStart ==> k.started != Some(true);
  }

  // ------------------------------------------------------------ reading an ID and passing a report on

  predicate CanTakeId(k: Conn) {
    k.r == RReadId && k.upRead < |k.up| && k.up[k.upRead].id != ""
  }

  predicate CanForward(k: Conn) {
    k.r == RReceiving && k.upRead < |k.up| && k.up[k.upRead].state != Failed
  }

  function TakeId(k: Conn): Conn
    requires k.upRead < |k.up|
  {
    k.(rid := k.up[k.upRead].id, upRead := k.upRead + 1, r := RRegistering)
  }

  function DoForward(k: Conn): Conn
    requires k.upRead < |k.up|
  {
    k.(upRead := k.upRead + 1, r := if k.up[k.upRead].state == Completed then RExiting(true) else k.r)
  }

  lemma ForwardOk(cfg: Config, k: Conn)
    requires ConnOk(cfg, k) && k.r == RReceiving && k.upRead < |k.up|
    ensures ConnOk(cfg, DoForward(k))
  {
    RemoteFrame(cfg, k, DoForward(k));
  }

  /** With real Workers nothing but progress and completion reports is ever passed on. */
  lemma ForwardFlow(cfg: Config, k: Conn, base: G.Report, q: seq<WorkerMsg>, counted: bool, ignored: bool)
    requires ConnOk(cfg, k) && k.r == RReceiving && k.upRead < |k.up| && k.up[k.upRead].state != Failed
    requires Flowing(k, base, q, counted, ignored)
    ensures Flowing(DoForward(k), base, q + [k.up[k.upRead]], counted, ignored)
  {
    var m, k' := k.up[k.upRead], DoForward(k);
    NextIsReport(cfg, k);
    hide ConnOk, Chain;
    assert q + Unread(k) == (q + [m]) + Unread(k');
  }

  lemma NextIsReport(cfg: Config, k: Conn)
    requires ConnOk(cfg, k) && k.r == RReceiving && k.upRead < |k.up| && k.up[k.upRead].state != Failed
    ensures var m, k' := k.up[k.upRead], DoForward(k);
      && IsReport(m) && m.id == k.wid && Unread(k) == [m] + Unread(k')
      && (m.state == Completed ==>
            k.reported && Unread(k') == [] && Delivered(k') && Rep(m) == G.Totals(k.group))
  {
    var m, k' := k.up[k.upRead], DoForward(k);
    var rest := k'.up[k'.upRead..];
    assert k.up[k.upRead..][1..] == rest;
    assert k'.up[k.upRead] == m;
    if m.state == Completed {
      forall i | 0 <= i < |rest| ensures !IsReport(rest[i]) {
        assert rest[i] == k.up[k.upRead + 1 + i];
      }
      NoReports(rest);
    }
  }

  // ------------------------------------------------------------ recording a report

  /** The guards `TxCount > 0` and `TotalTxBytes > 0` lose nothing, because reports never decrease. */
  lemma RecordExact(coord: Coord, m: WorkerMsg)
    requires m.id in coord.txsPerWorker && m.id in coord.bytesPerWorker
    requires coord.txsPerWorker[m.id] <= m.txCount && coord.bytesPerWorker[m.id] <= m.totalTxBytes
    ensures var r := Record(coord, m);
      && r.txsPerWorker == coord.txsPerWorker[m.id := m.txCount]
      && r.bytesPerWorker == coord.bytesPerWorker[m.id := m.totalTxBytes]
  {
  }

  /** Dequeuing a Testing update, whether it is recorded or ignored. */
  lemma TakeTesting(k: Conn, base: G.Report, q: seq<WorkerMsg>, counted: bool, ignored: bool)
    requires Flowing(k, base, q, counted, ignored) && q != [] && q[0].state == Testing
    ensures Flowing(k, base, q[1..], counted, ignored)
    ensures Flowing(k, Rep(q[0]), q[1..], counted, ignored)
    ensures G.Below(base, Rep(q[0]))
  {
    hide Chain, Unread, Delivered, G.Level, G.Totals;
    ChainTake(base, q + Unread(k), G.Level(k.group));
    assert (q + Unread(k))[1..] == q[1..] + Unread(k);
    assert G.Below(base, Rep((q + Unread(k))[0])) by {
      ChainHead(base, q + Unread(k), G.Level(k.group));
    }
  }

  /** Dequeuing the Completed update: it was the last one in flight, and it is either counted or ignored. */
  lemma TakeCompleted(k: Conn, base: G.Report, q: seq<WorkerMsg>, counted: bool, ignored: bool)
    requires Flowing(k, base, q, counted, ignored) && q != [] && q[0].state == Completed
    ensures q == [q[0]] && !counted && !ignored
    ensures Flowing(k, base, [], false, true)
    ensures Flowing(k, Rep(q[0]), [], true, false)
    ensures G.Below(base, Rep(q[0]))
  {
    assert q[|q| - 1] == q[0];
    ChainTake(base, q + Unread(k), G.Level(k.group));
    assert (q + Unread(k))[1..] == [] + Unread(k);
  }
}
