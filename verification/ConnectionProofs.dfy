/** Every step of a connection keeps its local invariant. */
module ConnectionProofs {
  import opened Basics
  import opened LoadConfig
  import opened ConfigCheck
  import opened CoordinatorModel
  import opened Connection
  import G = GroupModel

  lemma OpenOk(cfg: Config, wid: string)
    ensures ConnOk(cfg, Open(wid))
  {
  }

  ghost predicate StillTalking(up: seq<WorkerMsg>) {
    up != [] && forall i :: 0 <= i < |up| ==> up[i].state in {Unset, Testing}
  }

  lemma PutUpLegal(up: seq<WorkerMsg>, wid: string, m: WorkerMsg, o: Write)
    requires UpLegal(up, wid) && m.id == wid
    requires StillTalking(up) && m.state in {Testing, Completed, Failed}
    ensures UpLegal(Put(up, m, o), wid)
  {
  }

  lemma FailOk(cfg: Config, k: Conn, o: Write)
    requires ConnOk(cfg, k) && k.w in {WAwaitAccept, WAwaitStart, WConnect, WTesting} && !k.reported
    ensures ConnOk(cfg, Fail(k, o))
  {
    hide DownLegal, Validate, G.Inv;
    PutUpLegal(k.up, k.wid, Plain(k.wid, Failed), o);
  }

  lemma HelloOk(cfg: Config, k: Conn, o: Write)
    requires ConnOk(cfg, k) && Enabled(cfg, k, Hello(o))
    ensures ConnOk(cfg, Do(cfg, k, Hello(o)))
  {
    hide DownLegal, Validate, G.Inv;
  }

  lemma ReplyOk(cfg: Config, k: Conn, o: Write, cancelled: bool)
    requires ConnOk(cfg, k) && Enabled(cfg, k, ReadReply(o, cancelled))
    ensures ConnOk(cfg, DoReply(k, o, cancelled))
  {
    hide UpLegal, DownLegal, Validate, G.Inv, Put;
    var k', r := k.(downRead := k.downRead + 1), DoReply(k, o, cancelled);
    SkipDownOk(cfg, k);
    EndOk(cfg, k');
    if r.w == WAwaitStart {
      AcceptedConfig(cfg, k);
      assert !Validate(cfg).Err?;
      AwaitStartOk(cfg, k');
    } else if r != k'.(w := WEnded) {
      FailOk(cfg, k', o);
    }
  }

  lemma EndOk(cfg: Config, k: Conn)
    requires ConnOk(cfg, k) && k.w == WAwaitAccept
    ensures ConnOk(cfg, k.(w := WEnded))
  {
    hide UpLegal, DownLegal, Validate;
  }

  lemma AcceptedConfig(cfg: Config, k: Conn)
    requires ConnOk(cfg, k) && k.downRead < |k.down| && k.down[k.downRead].state == Accepted
    ensures k.down[k.downRead].config == Some(cfg)
  {
  }

  lemma AwaitStartOk(cfg: Config, k: Conn)
    requires ConnOk(cfg, k) && k.w == WAwaitAccept && Validate(cfg).Ok?
    ensures ConnOk(cfg, k.(w := WAwaitStart, cfg := Some(cfg)))
  {
    hide UpLegal, DownLegal, Validate;
  }

  lemma SkipDownOk(cfg: Config, k: Conn)
    requires ConnOk(cfg, k) && k.downRead < |k.down|
    ensures ConnOk(cfg, k.(downRead := k.downRead + 1))
  {
    hide UpLegal, DownLegal, Validate;
  }

  lemma StartOk(cfg: Config, k: Conn, o: Write)
    requires ConnOk(cfg, k) && Enabled(cfg, k, ReadStart(o))
    ensures ConnOk(cfg, DoStart(k, o))
  {
    hide UpLegal, DownLegal, Validate, G.Inv;
    var k' := k.(downRead := k.downRead + 1);
    SkipDownOk(cfg, k);
    if k.down[k.downRead].state == Testing {
      TestingArrived(cfg, k);
    } else {
      FailOk(cfg, k', o);
    }
  }

  lemma TestingArrived(cfg: Config, k: Conn)
    requires DownOk(cfg, k) && k.downRead < |k.down| && k.down[k.downRead].state == Testing
    ensures HasTesting(k)
  {
  }

  lemma TransactorsPositive(cfg: Config)
    requires Usable(cfg)
    ensures Transactors(cfg) >= 1
  {
    assert |cfg.endpoints| * cfg.connections >= 1 * cfg.connections;
  }

  lemma ConnectOk(cfg: Config, k: Conn, ok: bool, o: Write)
    requires ConnOk(cfg, k) && Enabled(cfg, k, ConnectAll(ok, o))
    ensures ConnOk(cfg, Do(cfg, k, ConnectAll(ok, o)))
  {
    hide UpLegal, DownLegal, Validate, G.Inv;
    if ok {
      ValidIsUsable(cfg);
      TransactorsPositive(cfg);
      G.StartInv(cfg, Transactors(cfg));
    } else {
      FailOk(cfg, k, o);
    }
  }

  lemma GroupOk(cfg: Config, k: Conn, g: G.Step)
    requires ConnOk(cfg, k) && Enabled(cfg, k, GroupStep(g))
    ensures ConnOk(cfg, Do(cfg, k, GroupStep(g)))
    ensures G.Below(G.Level(k.group), G.Level(Do(cfg, k, GroupStep(g)).group))
  {
    hide UpLegal, DownLegal, Validate, G.Inv, G.Do, G.Enabled;
    G.StepInv(cfg, k.group, g);
  }

  lemma ReportOk(cfg: Config, k: Conn, o: Write)
    requires ConnOk(cfg, k) && Enabled(cfg, k, ReportProgress(o))
    ensures ConnOk(cfg, DoReport(cfg, k, o))
    ensures G.Below(G.Level(k.group), G.Level(DoReport(cfg, k, o).group))
  {
    hide UpLegal, DownLegal, Validate, G.Inv, G.Level, G.Do;
    var g := G.Do(cfg, k.group, G.MakeReport);
    G.StepInv(cfg, k.group, G.MakeReport);
    G.StepInv(cfg, g, G.Cancel);
    PutUpLegal(k.up, k.wid, ReportMsg(k, Testing, G.Level(k.group)), o);
  }

  lemma FinishOk(cfg: Config, k: Conn, o: Write, o2: Write)
    requires ConnOk(cfg, k) && Enabled(cfg, k, Finish(o, o2))
    ensures ConnOk(cfg, DoFinish(k, o, o2))
  {
    hide ConnOk, WorkerOk, UpLegal;
    FinishMeans(cfg, k);
    if k.group.waitErr {
      FailOk(cfg, k, o);
    } else {
      CompleteOk(cfg, k, o);
      if o != Sent {
        FailAfterReportOk(cfg, k.(w := WEnded, reported := true, up := Put(k.up, ReportMsg(k, Completed, G.Level(k.group)), o)), o2);
      }
    }
  }

  lemma FinishMeans(cfg: Config, k: Conn)
    requires ConnOk(cfg, k) && k.w == WTesting
    ensures !k.reported
  {
    hide UpLegal, DownLegal, Validate, G.Inv;
  }

  lemma CompleteOk(cfg: Config, k: Conn, o: Write)
    requires ConnOk(cfg, k) && k.w == WTesting && G.Waited(k.group) && !k.group.waitErr
    ensures var k' := k.(w := WEnded, reported := true, up := Put(k.up, ReportMsg(k, Completed, G.Level(k.group)), o));
      ConnOk(cfg, k') && k'.up != [] && forall i :: 0 <= i < |k'.up| ==> k'.up[i].state != Failed
  {
    hide DownLegal, Validate, G.Inv;
    G.WaitedTotals(cfg, k.group);
    PutUpLegal(k.up, k.wid, ReportMsg(k, Completed, G.Level(k.group)), o);
  }

  lemma FailAfterReportOk(cfg: Config, k: Conn, o: Write)
    requires ConnOk(cfg, k) && k.w == WEnded && k.up != [] && forall i :: 0 <= i < |k.up| ==> k.up[i].state != Failed
    ensures ConnOk(cfg, Fail(k, o))
  {
    hide DownLegal, Validate, G.Inv;
  }

  lemma WorkerStepOk(cfg: Config, k: Conn, a: Step)
    requires ConnOk(cfg, k) && Enabled(cfg, k, a)
    requires a.Hello? || a.ReadReply? || a.ReplyMissing? || a.ReadStart? || a.StartCancelled? || a.ConnectAll?
             || a.GroupStep? || a.ReportProgress? || a.Finish?
    ensures ConnOk(cfg, Do(cfg, k, a))
  {
    hide UpLegal, DownLegal, Validate, G.Inv, DoReport, DoFinish, DoReply, DoStart;
    match a
    case Hello(o) => HelloOk(cfg, k, o);
    case ReadReply(o, cancelled) => ReplyOk(cfg, k, o, cancelled);
    case ReplyMissing =>
    case ReadStart(o) => StartOk(cfg, k, o);
    case StartCancelled(o) => FailOk(cfg, k, o);
    case ConnectAll(ok, o) => ConnectOk(cfg, k, ok, o);
    case GroupStep(g) => GroupOk(cfg, k, g);
    case ReportProgress(o) => ReportOk(cfg, k, o);
    case Finish(o, o2) => FinishOk(cfg, k, o, o2);
  }

  /** Steps of the remoteWorker leave the Worker alone and only ever add to the downward wire. */
  lemma RemoteFrame(cfg: Config, k: Conn, k': Conn)
    requires ConnOk(cfg, k) && k.down <= k'.down && k.upRead <= k'.upRead <= |k.up|
    requires k'.(r := k.r, rid := k.rid, down := k.down, downRead := k.downRead, ctrl := k.ctrl, upRead := k.upRead,
                 registered := k.registered, started := k.started, stopped := k.stopped) == k
    ensures UpOk(k') && WorkerOk(cfg, k')
  {
    hide UpLegal, DownLegal, Validate, G.Inv;
    assert k'.up == k.up && k'.group == k.group && k'.w == k.w && k'.cfg == k.cfg && k'.reported == k.reported;
  }

  lemma PutDownLegal(down: seq<WorkerMsg>, cfg: Config, m: WorkerMsg, o: Write)
    requires DownLegal(down, cfg) && forall i :: 0 <= i < |down| ==> down[i].state in {Accepted, Testing}
    requires m.state in {Accepted, Rejected, Testing, Failed}
    requires m.state == Accepted ==> down == [] && m.config == Some(cfg)
    requires m.state == Testing ==> |down| == 1 && down[0].state == Accepted
    ensures DownLegal(Put(down, m, o), cfg)
  {
  }

  lemma RejectOk(cfg: Config, k: Conn, o: Write)
    requires ConnOk(cfg, k) && forall i :: 0 <= i < |k.down| ==> k.down[i].state == Accepted
    requires k.started != Some(true)
    ensures ConnOk(cfg, Reject(k, o))
  {
    PutDownLegal(k.down, cfg, Plain("", Rejected), o);
    RemoteFrame(cfg, k, Reject(k, o));
  }

  lemma AnsweredOk(cfg: Config, k: Conn, o: Write, o2: Write)
    requires ConnOk(cfg, k) && Enabled(cfg, k, Answered(o, o2))
    ensures ConnOk(cfg, DoAnswered(cfg, k, o, o2))
  {
    hide UpOk, WorkerOk, DownLegal;
    if !k.registered.value {
      RejectOk(cfg, k, o);
    } else {
      var m := WorkerMsg(k.rid, Accepted, 0, 0, Some(cfg));
      PutDownLegal(k.down, cfg, m, o);
      var k' := k.(r := if o == Sent then RWaitStart else RExiting(false), down := Put(k.down, m, o));
      RemoteFrame(cfg, k, k');
      assert ConnOk(cfg, k');
      if o != Sent {
        RejectOk(cfg, k', o2);
        assert DoAnswered(cfg, k, o, o2) == Reject(k', o2);
      }
    }
  }

  lemma CtrlOk(cfg: Config, k: Conn, o: Write)
    requires ConnOk(cfg, k) && Enabled(cfg, k, TakeCtrl(o))
    ensures ConnOk(cfg, DoCtrl(k, o))
  {
    hide UpOk, WorkerOk, DownLegal;
    var k' := DoCtrl(k, o);
    RemoteFrame(cfg, k, k');
    if k.r == RWaitStart {
      CtrlWhileWaiting(cfg, k, o);
    } else {
      CtrlWhileReceiving(cfg, k, o);
    }
  }

  lemma CtrlTail(k: Conn)
    requires k.ctrl != [] && forall i :: 0 <= i < |k.ctrl| ==> k.ctrl[i] == Testing || k.ctrl[i] == Failed
    ensures forall i :: 0 <= i < |k.ctrl[1..]| ==> k.ctrl[1..][i] == Testing || k.ctrl[1..][i] == Failed
  {
    assert forall i :: 0 <= i < |k.ctrl[1..]| ==> k.ctrl[1..][i] == k.ctrl[i + 1];
  }

  lemma CtrlWhileWaiting(cfg: Config, k: Conn, o: Write)
    requires DownOk(cfg, k) && RemoteOk(k) && k.r == RWaitStart && k.ctrl != []
    ensures DownOk(cfg, DoCtrl(k, o)) && RemoteOk(DoCtrl(k, o))
  {
    hide DownLegal;
    CtrlTail(k);
    PutDownLegal(k.down, cfg, Plain(k.rid, k.ctrl[0]), o);
  }

  lemma DownTalking(cfg: Config, k: Conn)
    requires DownOk(cfg, k) && k.r == RReceiving
    ensures forall i :: 0 <= i < |k.down| ==> k.down[i].state in {Accepted, Testing}
  {
  }

  lemma CtrlWhileReceiving(cfg: Config, k: Conn, o: Write)
    requires DownOk(cfg, k) && RemoteOk(k) && k.r == RReceiving && k.ctrl != []
    ensures DownOk(cfg, DoCtrl(k, o)) && RemoteOk(DoCtrl(k, o))
  {
    hide DownLegal;
    CtrlTail(k);
    DownTalking(cfg, k);
    if k.ctrl[0] == Failed {
      PutDownLegal(k.down, cfg, Plain(k.rid, Failed), o);
    }
  }

  lemma ExitOk(cfg: Config, k: Conn, k': Conn)
    requires ConnOk(cfg, k) && k.r in {RWaitStart, RReceiving} && k.upRead <= k'.upRead <= |k.up|
    requires k' == k.(r := RExiting(false), upRead := k'.upRead)
    ensures ConnOk(cfg, k')
  {
    RemoteFrame(cfg, k, k');
  }

  lemma NoIdOk(cfg: Config, k: Conn, o: Write)
    requires ConnOk(cfg, k) && k.r == RReadId
    ensures ConnOk(cfg, Do(cfg, k, NoId(o)))
  {
    PutDownLegal(k.down, cfg, Plain("", Failed), o);
    RemoteFrame(cfg, k, Do(cfg, k, NoId(o)));
  }

  lemma TimeoutOk(cfg: Config, k: Conn, o: Write)
    requires ConnOk(cfg, k) && k.r == RRegistering
    ensures ConnOk(cfg, Reject(k, o))
  {
    hide UpOk, WorkerOk, DownLegal;
    RejectOk(cfg, k, o);
  }

  lemma DropOk(cfg: Config, k: Conn, a: Step)
    requires ConnOk(cfg, k) && Enabled(cfg, k, a) && (a.DropDown? || a.DropUp?)
    ensures ConnOk(cfg, Do(cfg, k, a))
  {
    RemoteFrame(cfg, k, Do(cfg, k, a));
  }

  lemma StepOk(cfg: Config, k: Conn, a: Step)
    requires ConnOk(cfg, k) && Enabled(cfg, k, a)
    ensures ConnOk(cfg, Do(cfg, k, a))
  {
    hide ConnOk, DoReport, DoFinish, DoReply, DoStart, DoAnswered, DoCtrl;
    match a
    case DropDown => DropOk(cfg, k, a);
    case DropUp => DropOk(cfg, k, a);
    case NoId(o) => NoIdOk(cfg, k, o);
    case Answered(o, o2) => AnsweredOk(cfg, k, o, o2);
    case RegisterTimeout(o) => TimeoutOk(cfg, k, o);
    case TakeCtrl(o) => CtrlOk(cfg, k, o);
    case Stopped => ExitOk(cfg, k, Do(cfg, k, a));
    case ReadError => ExitOk(cfg, k, Do(cfg, k, a));
    case ReadFailed => ExitOk(cfg, k, Do(cfg, k, a));
    case _ => WorkerStepOk(cfg, k, a);
  }
}
