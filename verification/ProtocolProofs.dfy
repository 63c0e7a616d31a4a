/** Every action of the protocol keeps the invariant, hence it holds in every reachable state. */
module ProtocolProofs {
  import opened Basics
  import opened LoadConfig
  import opened ConfigCheck
  import opened CoordinatorModel
  import opened Connection
  import opened Flow
  import opened Protocol
  import CP = ConnectionProofs
  import G = GroupModel

  // ------------------------------------------------------------ queues

  lemma {:induction false} QueuedAppend(us: seq<Update>, u: Update, c: ConnId)
    ensures Queued(us + [u], c) == Queued(us, c) + (if u.conn == c then [u.msg] else [])
  {
    if us == [] {
      assert us + [u] == [u];
    } else {
      var rest := us[1..];
      assert us + [u] == [us[0]] + (rest + [u]);
      QueuedAppend(rest, u, c);
      assert Queued([us[0]] + (rest + [u]), c) == (if us[0].conn == c then [us[0].msg] else []) + Queued(rest + [u], c) by {
        QueuedCons(us[0], rest + [u], c);
      }
    }
  }

  lemma QueuedCons(u: Update, us: seq<Update>, c: ConnId)
    ensures Queued([u] + us, c) == (if u.conn == c then [u.msg] else []) + Queued(us, c)
  {
    assert ([u] + us)[1..] == us;
  }

  lemma {:induction false} QueuedNone(us: seq<Update>, c: ConnId)
    requires forall i :: 0 <= i < |us| ==> us[i].conn != c
    ensures Queued(us, c) == []
  {
    if us != [] {
      QueuedNone(us[1..], c);
    }
  }

  // ------------------------------------------------------------ one connection changes

  ghost predicate Grows(conns: map<ConnId, Conn>, c: ConnId, k: Conn) {
    c in conns ==> Stable(conns[c], k)
  }

  lemma NamedStable(m: map<string, ConnId>, conns: map<ConnId, Conn>, c: ConnId, k: Conn)
    requires Named(m, conns) && Grows(conns, c, k)
    ensures Named(m, conns[c := k])
  {
  }

  lemma RegistersStable(q: seq<ConnId>, conns: map<ConnId, Conn>, c: ConnId, k: Conn)
    requires RegistersOk(q, conns) && Grows(conns, c, k)
    ensures RegistersOk(q, conns[c := k])
  {
  }

  lemma LeavesStable(q: seq<Leave>, conns: map<ConnId, Conn>, c: ConnId, k: Conn)
    requires LeavesOk(q, conns) && Grows(conns, c, k)
    ensures LeavesOk(q, conns[c := k])
  {
  }

  lemma IgnoredStable(ignored: set<ConnId>, conns: map<ConnId, Conn>, workers: map<string, ConnId>, c: ConnId, k: Conn)
    requires IgnoredOk(ignored, conns, workers) && Grows(conns, c, k)
    ensures IgnoredOk(ignored, conns[c := k], workers)
  {
  }

  lemma StartedStable(cs: set<ConnId>, conns: map<ConnId, Conn>, c: ConnId, k: Conn)
    requires StartedAll(conns, cs) && Grows(conns, c, k)
    ensures StartedAll(conns[c := k], cs)
  {
  }

  lemma PhaseStable(phase: Phase, conns: map<ConnId, Conn>, workers: map<string, ConnId>, roster: map<string, ConnId>,
                    expected: nat, c: ConnId, k: Conn)
    requires PhaseOk(phase, conns, workers, roster, expected) && Grows(conns, c, k)
    ensures PhaseOk(phase, conns[c := k], workers, roster, expected)
  {
    hide StartedAll, Grows;
    if phase == Receiving || phase == Finished(true) {
      StartedStable(roster.Values, conns, c, k);
    } else if phase.Starting? {
      StartedStable(roster.Values - phase.todo, conns, c, k);
    }
  }

  /** Everything in the invariant but the connections' own part. */
  ghost predicate Frame(s: State) {
    && RegistersOk(s.registers, s.conns) && LeavesOk(s.unregisters, s.conns) && UpdatesOk(s.updates, s.roster)
    && PhaseOk(s.phase, s.conns, s.coord.workers, s.roster, s.expected)
    && TotalsOk(s.coord, s.roster, s.phase == Finished(true))
    && CountsOk(s.expected, s.coord.completed, s.phase == Finished(true), s.counted, s.ignored, s.roster)
    && IgnoredOk(s.ignored, s.conns, s.coord.workers)
    && DeltasOk(s.deltas, s.coord.totalTxs, s.coord.totalBytes)
    && Named(s.coord.workers, s.conns) && Named(s.roster, s.conns)
  }

  lemma FrameStable(s: State, c: ConnId, k: Conn)
    requires Frame(s) && Grows(s.conns, c, k)
    ensures Frame(SetConn(s, c, k))
  {
    hide Named, RegistersOk, LeavesOk, UpdatesOk, PhaseOk, TotalsOk, CountsOk, IgnoredOk, DeltasOk, Grows;
    NamedStable(s.coord.workers, s.conns, c, k);
    NamedStable(s.roster, s.conns, c, k);
    RegistersStable(s.registers, s.conns, c, k);
    LeavesStable(s.unregisters, s.conns, c, k);
    IgnoredStable(s.ignored, s.conns, s.coord.workers, c, k);
    PhaseStable(s.phase, s.conns, s.coord.workers, s.roster, s.expected, c, k);
  }

  lemma InvIsFrame(s: State)
    ensures Inv(s) ==> Frame(s)
    ensures Inv(s) ==>
              ConnsOk(s.cfg, s.conns, s.coord.txsPerWorker, s.coord.bytesPerWorker, s.updates, s.roster, s.counted, s.ignored)
    ensures Frame(s)
            && ConnsOk(s.cfg, s.conns, s.coord.txsPerWorker, s.coord.bytesPerWorker, s.updates, s.roster, s.counted, s.ignored)
            ==> Inv(s)
  {
    hide ConnsOk, Named, RegistersOk, LeavesOk, UpdatesOk, PhaseOk, TotalsOk, CountsOk, IgnoredOk, DeltasOk;
  }

  /** `k` may stand at `c` without disturbing what the rest of the system relies on. */
  ghost predicate Fits(s: State, c: ConnId, k: Conn) {
    && ConnOk(s.cfg, k) && Grows(s.conns, c, k)
    && Placed(k, c, s.coord.txsPerWorker, s.coord.bytesPerWorker, s.updates, s.roster, c in s.counted, c in s.ignored)
  }

  /** The coordinator and the other connections do not notice a connection's own steps. */
  lemma ChangeConn(s: State, c: ConnId, k: Conn)
    requires Inv(s) && Fits(s, c, k)
    ensures Inv(SetConn(s, c, k))
  {
    hide Inv, Frame, ConnOk, Placed, Grows;
    InvIsFrame(s);
    InvIsFrame(SetConn(s, c, k));
    FrameStable(s, c, k);
  }

  lemma AtConn(s: State, c: ConnId)
    requires Inv(s) && c in s.conns
    ensures Fits(s, c, s.conns[c])
  {
    hide ConnOk, Placed, Named, RegistersOk, LeavesOk, UpdatesOk, PhaseOk, TotalsOk, CountsOk, IgnoredOk, DeltasOk;
  }

  lemma ConnectInv(s: State, c: ConnId, wid: string)
    requires Inv(s) && c !in s.conns
    ensures Inv(SetConn(s, c, Open(wid)))
  {
    assert c !in s.roster.Values && UpdatesOk(s.updates, s.roster) by {
      hide ConnsOk;
    }
    CP.OpenOk(s.cfg, wid);
    QueuedNone(s.updates, c);
    assert Fits(s, c, Open(wid)) by {
      hide ConnOk, Inv;
    }
    ChangeConn(s, c, Open(wid));
  }

  lemma LocalInv(s: State, c: ConnId, step: Connection.Step)
    requires Inv(s) && c in s.conns && Enabled(s.cfg, s.conns[c], step)
    ensures Inv(SetConn(s, c, Do(s.cfg, s.conns[c], step)))
  {
    AtConn(s, c);
    LocalFits(s, c, step);
    ChangeConn(s, c, Do(s.cfg, s.conns[c], step));
  }

  lemma LocalFits(s: State, c: ConnId, step: Connection.Step)
    requires c in s.conns && Fits(s, c, s.conns[c]) && Enabled(s.cfg, s.conns[c], step)
    ensures Fits(s, c, Do(s.cfg, s.conns[c], step))
  {
    hide ConnOk, Flowing, Idle, Enabled, Do;
    var k := s.conns[c];
    CP.StepOk(s.cfg, k, step);
    StepStable(s.cfg, k, step);
    if c in s.roster.Values {
      StepFlow(s.cfg, k, step, Recorded(s.coord.txsPerWorker, s.coord.bytesPerWorker, k.wid), Queued(s.updates, c),
               c in s.counted, c in s.ignored);
    } else {
      StepIdle(s.cfg, k, step);
    }
  }

  /** Steps that touch neither the upward wire nor the group. */
  lemma QuietFits(s: State, c: ConnId, k: Conn)
    requires c in s.conns && Fits(s, c, s.conns[c]) && Stable(s.conns[c], k)
    requires ConnOk(s.cfg, k) && Quiet(s.conns[c], k)
    requires c in s.roster.Values || Idle(k)
    ensures Fits(s, c, k)
  {
    hide ConnOk, Flowing, Idle;
    if c in s.roster.Values {
      assert Unread(k) == Unread(s.conns[c]);
      QuietFlow(s.conns[c], k, Recorded(s.coord.txsPerWorker, s.coord.bytesPerWorker, k.wid), Queued(s.updates, c),
                c in s.counted, c in s.ignored);
    }
  }

  lemma QuietInv(s: State, c: ConnId, k: Conn)
    requires Inv(s) && c in s.conns && Stable(s.conns[c], k)
    requires ConnOk(s.cfg, k) && Quiet(s.conns[c], k)
    requires c in s.roster.Values || Idle(k)
    ensures Inv(SetConn(s, c, k))
  {
    hide Inv, ConnOk, Idle, Fits;
    AtConn(s, c);
    QuietFits(s, c, k);
    ChangeConn(s, c, k);
  }

  // ------------------------------------------------------------ requests to the coordinator

  lemma EnqueueInv(s: State, registers: seq<ConnId>, leaves: seq<Leave>)
    requires Inv(s) && RegistersOk(registers, s.conns) && LeavesOk(leaves, s.conns)
    ensures Inv(s.(registers := registers, unregisters := leaves))
  {
    hide ConnsOk, Named, RegistersOk, LeavesOk, UpdatesOk, PhaseOk, TotalsOk, CountsOk, IgnoredOk, DeltasOk;
  }

  lemma InvQueues(s: State)
    requires Inv(s)
    ensures RegistersOk(s.registers, s.conns) && LeavesOk(s.unregisters, s.conns) && UpdatesOk(s.updates, s.roster)
    ensures Named(s.coord.workers, s.conns) && Named(s.roster, s.conns)
  {
    hide ConnsOk, Named, RegistersOk, LeavesOk, UpdatesOk, PhaseOk, TotalsOk, CountsOk, IgnoredOk, DeltasOk;
  }

  lemma NotStarted(s: State, c: ConnId)
    requires Named(s.roster, s.conns) && c in s.conns && s.conns[c].r == RReadId
    ensures c !in s.roster.Values
  {
  }

  lemma RequestConn(s: State, c: ConnId)
    requires Possible(s, Request(c)) && Fits(s, c, s.conns[c]) && c !in s.roster.Values
    ensures var k := s.conns[c];
      var k' := TakeId(k);
      Fits(s, c, k') && Identified(k') && Grows(s.conns, c, k')
  {
    var k := s.conns[c];
    var k' := TakeId(k);
    CP.RemoteFrame(s.cfg, k, k');
  }

  lemma RegistersAppend(q: seq<ConnId>, conns: map<ConnId, Conn>, c: ConnId)
    requires RegistersOk(q, conns) && c in conns && Identified(conns[c])
    ensures RegistersOk(q + [c], conns)
  {
  }

  lemma LeavesAppend(q: seq<Leave>, conns: map<ConnId, Conn>, l: Leave)
    requires LeavesOk(q, conns) && l.conn in conns && Gone(conns[l.conn]) && l.id == conns[l.conn].rid
    requires !l.err ==> Forwarded(conns[l.conn])
    ensures LeavesOk(q + [l], conns)
  {
  }

  lemma RequestInv(s: State, c: ConnId)
    requires Inv(s) && Possible(s, Request(c))
    ensures Inv(DoRequest(s, c))
  {
    hide Inv, Fits, Named, RegistersOk, LeavesOk, UpdatesOk, Grows, Identified;
    var k := s.conns[c];
    var k' := TakeId(k);
    InvQueues(s);
    NotStarted(s, c);
    AtConn(s, c);
    RequestConn(s, c);
    ChangeConn(s, c, k');
    var s1 := SetConn(s, c, k');
    RegistersStable(s.registers, s.conns, c, k');
    LeavesStable(s.unregisters, s.conns, c, k');
    RegistersAppend(s.registers, s1.conns, c);
    EnqueueInv(s1, s.registers + [c], s.unregisters);
  }

  lemma DepartConn(cfg: Config, k: Conn)
    requires ConnOk(cfg, k) && k.r.RExiting?
    ensures var k' := k.(r := RGone(k.r.ok));
      ConnOk(cfg, k') && Stable(k, k') && Quiet(k, k') && (Idle(k) ==> Idle(k')) && Gone(k') && (k.r.ok ==> Forwarded(k'))
  {
    CP.RemoteFrame(cfg, k, k.(r := RGone(k.r.ok)));
  }

  lemma DepartInv(s: State, c: ConnId)
    requires Inv(s) && Possible(s, Depart(c))
    ensures Inv(DoDepart(s, c))
  {
    hide Inv, ConnOk, Idle, Stable, Quiet, Fits, Named, RegistersOk, LeavesOk, UpdatesOk, Gone, Forwarded;
    var k := s.conns[c];
    var k' := k.(r := RGone(k.r.ok));
    ConnFacts(s, c);
    DepartConn(s.cfg, k);
    QuietInv(s, c, k');
    InvQueues(s);
    RegistersStable(s.registers, s.conns, c, k');
    LeavesStable(s.unregisters, s.conns, c, k');
    LeavesAppend(s.unregisters, s.conns[c := k'], Leave(c, k.rid, !k.r.ok));
    EnqueueInv(SetConn(s, c, k'), s.registers, s.unregisters + [Leave(c, k.rid, !k.r.ok)]);
  }

  lemma ConnFacts(s: State, c: ConnId)
    requires Inv(s) && c in s.conns
    ensures ConnOk(s.cfg, s.conns[c])
    ensures c in s.roster.Values || Idle(s.conns[c])
  {
    AtConn(s, c);
    hide ConnOk, Idle, Flowing, Inv, Grows;
  }

  // ------------------------------------------------------------ a report enters the update queue

  lemma ForwardFits(s: State, c: ConnId)
    requires Possible(s, Forward(c)) && Fits(s, c, s.conns[c])
    ensures c in s.roster.Values && Grows(s.conns, c, DoForward(s.conns[c]))
    ensures var k := s.conns[c];
      Fits(s.(updates := s.updates + [Update(c, k.up[k.upRead])]), c, DoForward(k))
  {
    hide ConnOk, Flowing;
    var k := s.conns[c];
    assert c in s.roster.Values;
    var u := Update(c, k.up[k.upRead]);
    QueuedAppend(s.updates, u, c);
    ForwardOk(s.cfg, k);
    ForwardFlow(s.cfg, k, Recorded(s.coord.txsPerWorker, s.coord.bytesPerWorker, k.wid), Queued(s.updates, c),
                c in s.counted, c in s.ignored);
  }

  /** A queued update concerns no other connection. */
  lemma OtherUnmoved(s: State, u: Update, d: ConnId)
    requires d in s.conns && d != u.conn && Fits(s, d, s.conns[d])
    ensures Placed(s.conns[d], d, s.coord.txsPerWorker, s.coord.bytesPerWorker, s.updates + [u], s.roster,
                   d in s.counted, d in s.ignored)
  {
    hide ConnOk, Flowing, Idle, Grows;
    QueuedAppend(s.updates, u, d);
    assert Queued(s.updates + [u], d) == Queued(s.updates, d);
  }

  lemma OthersUnmoved(s: State, u: Update, k: Conn)
    requires Inv(s) && u.conn in s.conns && Fits(s.(updates := s.updates + [u]), u.conn, k)
    requires Frame(SetConn(s, u.conn, k).(updates := s.updates + [u]))
    ensures Inv(SetConn(s, u.conn, k).(updates := s.updates + [u]))
  {
    hide Inv, Frame, ConnOk, Placed, Grows;
    var s' := SetConn(s, u.conn, k).(updates := s.updates + [u]);
    InvIsFrame(s');
    forall d | d in s'.conns
      ensures ConnOk(s.cfg, s'.conns[d])
      ensures Placed(s'.conns[d], d, s'.coord.txsPerWorker, s'.coord.bytesPerWorker, s'.updates, s'.roster,
                     d in s'.counted, d in s'.ignored)
    {
      if d != u.conn {
        AtConn(s, d);
        OtherUnmoved(s, u, d);
      }
    }
  }

  lemma FrameQueue(s: State, u: Update)
    requires Frame(s) && u.conn in s.roster.Values
    ensures Frame(s.(updates := s.updates + [u]))
  {
    hide Named, RegistersOk, LeavesOk, PhaseOk, TotalsOk, CountsOk, IgnoredOk, DeltasOk;
  }

  lemma ForwardInv(s: State, c: ConnId)
    requires Inv(s) && Possible(s, Forward(c))
    ensures Inv(DoForwardOne(s, c))
  {
    hide Inv, Frame, Fits, Grows, ConnsOk;
    var k := s.conns[c];
    AtConn(s, c);
    ForwardFits(s, c);
    InvIsFrame(s);
    FrameStable(s, c, DoForward(k));
    FrameQueue(SetConn(s, c, DoForward(k)), Update(c, k.up[k.upRead]));
    OthersUnmoved(s, Update(c, k.up[k.upRead]), DoForward(k));
  }

  // ------------------------------------------------------------ the coordinator

  lemma PhaseInv(s: State, phase: Phase)
    requires Inv(s) && phase != Finished(true) && s.phase != Finished(true)
    requires PhaseOk(phase, s.conns, s.coord.workers, s.roster, s.expected)
    ensures Inv(s.(phase := phase))
  {
    hide ConnsOk, Named, RegistersOk, LeavesOk, UpdatesOk, PhaseOk, TotalsOk, CountsOk, IgnoredOk, DeltasOk;
  }

  lemma InvPhase(s: State)
    requires Inv(s)
    ensures PhaseOk(s.phase, s.conns, s.coord.workers, s.roster, s.expected)
  {
    hide ConnsOk, Named, RegistersOk, LeavesOk, UpdatesOk, PhaseOk, TotalsOk, CountsOk, IgnoredOk, DeltasOk;
  }

  /** Giving up changes nothing but the phase. */
  lemma AbandonInv(s: State)
    requires Inv(s) && s.phase != Finished(true)
    ensures Inv(Abandon(s))
  {
    hide Inv, StartedAll;
    InvPhase(s);
    PhaseInv(s, Failing(s.coord.workers.Values));
  }

  lemma SendConn(cfg: Config, k: Conn, w: WorkerState)
    requires ConnOk(cfg, k) && (w == Failed || w == Testing)
    ensures var k' := k.(ctrl := k.ctrl + [w]);
      ConnOk(cfg, k') && Stable(k, k') && Quiet(k, k') && (Idle(k) && w == Failed ==> Idle(k'))
  {
    CP.RemoteFrame(cfg, k, k.(ctrl := k.ctrl + [w]));
  }

  lemma SendInv(s: State, c: ConnId, w: WorkerState)
    requires Inv(s) && c in s.conns && (w == Failed || (w == Testing && c in s.roster.Values))
    ensures Inv(Send(s, c, w))
  {
    hide Inv, ConnOk, Idle, Stable, Quiet, Fits;
    var k := s.conns[c];
    ConnFacts(s, c);
    SendConn(s.cfg, k, w);
    QuietInv(s, c, k.(ctrl := k.ctrl + [w]));
  }

  lemma StartOneInv(s: State, c: ConnId)
    requires Inv(s) && Possible(s, StartOne(c))
    ensures Inv(Next(s, StartOne(c)))
  {
    hide Inv, StartedAll;
    InvPhase(s);
    assert c in s.roster.Values;
    SendInv(s, c, Testing);
    var s1 := Send(s, c, Testing);
    InvPhase(s1);
    PhaseInv(s1, Starting(s.phase.todo, Some(c)));
  }

  lemma StartedOneMore(conns: map<ConnId, Conn>, all: set<ConnId>, todo: set<ConnId>, c: ConnId)
    requires StartedAll(conns, all - todo) && c in conns && conns[c].started == Some(true)
    ensures StartedAll(conns, all - (todo - {c}))
  {
    forall d | d in all - (todo - {c}) ensures d in conns && conns[d].started == Some(true) {
      assert d == c || d in all - todo;
    }
  }

  lemma StartAnsweredInv(s: State)
    requires Inv(s) && Possible(s, StartAnswered)
    ensures Inv(DoStartAnswered(s))
  {
    hide Inv, StartedAll;
    InvPhase(s);
    var c := s.phase.current.value;
    if !s.conns[c].started.value {
      AbandonInv(s);
    } else {
      var todo := s.phase.todo - {c};
      StartedOneMore(s.conns, s.roster.Values, s.phase.todo, c);
      if todo == {} {
        assert s.roster.Values - todo == s.roster.Values;
        PhaseInv(s, Receiving);
      } else {
        PhaseInv(s, Starting(todo, None));
      }
    }
  }

  lemma FailOneInv(s: State, c: ConnId)
    requires Inv(s) && Possible(s, FailOne(c))
    ensures Inv(Next(s, FailOne(c)))
  {
    hide Inv, StartedAll;
    SendInv(s, c, Failed);
    InvPhase(Send(s, c, Failed));
    PhaseInv(Send(s, c, Failed), Failing(s.phase.left - {c}));
  }

  lemma FailDoneInv(s: State)
    requires Inv(s) && s.phase.Failing?
    ensures Inv(s.(phase := Finished(false)))
  {
    hide Inv, StartedAll;
    InvPhase(s);
    PhaseInv(s, Finished(false));
  }

  lemma StopConn(cfg: Config, k: Conn)
    requires ConnOk(cfg, k)
    ensures var k' := k.(stopped := true);
      ConnOk(cfg, k') && Stable(k, k') && Quiet(k, k') && (Idle(k) ==> Idle(k'))
  {
    CP.RemoteFrame(cfg, k, k.(stopped := true));
  }

  lemma StopOneInv(s: State, c: ConnId)
    requires Inv(s) && c in s.conns
    ensures Inv(SetConn(s, c, s.conns[c].(stopped := true)))
  {
    hide Inv, ConnOk, Idle, Stable, Quiet, Fits;
    ConnFacts(s, c);
    StopConn(s.cfg, s.conns[c]);
    QuietInv(s, c, s.conns[c].(stopped := true));
  }

  lemma DeltasAppend(ds: seq<(int, int)>, d: (int, int))
    ensures SumTxs(ds + [d]) == SumTxs(ds) + d.0 && SumBytes(ds + [d]) == SumBytes(ds) + d.1
  {
    assert (ds + [d])[..|ds|] == ds;
  }

  lemma PublishOk(c: Coord, roster: map<string, ConnId>, ds: seq<(int, int)>, finished: bool)
    requires TotalsOk(c, roster, false) && DeltasOk(ds, c.totalTxs, c.totalBytes)
    ensures TotalsOk(Publish(c), roster, finished)
    ensures DeltasOk(PublishDeltas(c, ds), Publish(c).totalTxs, Publish(c).totalBytes)
  {
    var d := (SumMap(c.txsPerWorker) - c.totalTxs, SumMap(c.bytesPerWorker) - c.totalBytes);
    DeltasAppend(ds, d);
    assert PublishDeltas(c, ds) == ds + [d];
    hide SumTxs, SumBytes, SumMap;
  }

  lemma InvTotals(s: State)
    requires Inv(s)
    ensures TotalsOk(s.coord, s.roster, s.phase == Finished(true))
    ensures DeltasOk(s.deltas, s.coord.totalTxs, s.coord.totalBytes)
    ensures CountsOk(s.expected, s.coord.completed, s.phase == Finished(true), s.counted, s.ignored, s.roster)
    ensures IgnoredOk(s.ignored, s.conns, s.coord.workers)
  {
    hide ConnsOk, Named, RegistersOk, LeavesOk, UpdatesOk, PhaseOk, TotalsOk, CountsOk, IgnoredOk, DeltasOk;
  }

  /** The published totals and their increments may be replaced by others that are in order. */
  lemma TotalsInv(s: State, coord: Coord, deltas: seq<(int, int)>)
    requires Inv(s) && s.phase != Finished(true)
    requires coord == s.coord.(totalTxs := coord.totalTxs, totalBytes := coord.totalBytes)
    requires TotalsOk(coord, s.roster, false) && DeltasOk(deltas, coord.totalTxs, coord.totalBytes)
    ensures Inv(s.(coord := coord, deltas := deltas))
  {
    hide ConnsOk, Named, RegistersOk, LeavesOk, UpdatesOk, PhaseOk, TotalsOk, CountsOk, IgnoredOk, DeltasOk;
  }

  lemma ProgressInv(s: State)
    requires Inv(s) && s.phase == Receiving
    ensures Inv(s.(coord := Publish(s.coord), deltas := PublishDeltas(s.coord, s.deltas)))
  {
    hide Inv, TotalsOk, DeltasOk, CountsOk, IgnoredOk, PublishDeltas, SumMap;
    InvTotals(s);
    PublishOk(s.coord, s.roster, s.deltas, false);
    TotalsInv(s, Publish(s.coord), PublishDeltas(s.coord, s.deltas));
  }

  // ------------------------------------------------------------ registering and unregistering

  lemma FewerWorkers(s: State, workers: map<string, ConnId>)
    requires !s.phase.Starting?
    requires PhaseOk(s.phase, s.conns, s.coord.workers, s.roster, s.expected)
    requires TotalsOk(s.coord, s.roster, s.phase == Finished(true))
    requires IgnoredOk(s.ignored, s.conns, s.coord.workers)
    requires Named(s.coord.workers, s.conns)
    requires forall id :: id in workers ==> id in s.coord.workers && workers[id] == s.coord.workers[id]
    ensures PhaseOk(s.phase, s.conns, workers, s.roster, s.expected)
    ensures TotalsOk(s.coord.(workers := workers), s.roster, s.phase == Finished(true))
    ensures IgnoredOk(s.ignored, s.conns, workers)
    ensures Named(workers, s.conns)
  {
    hide StartedAll;
    assert workers.Keys <= s.coord.workers.Keys;
    SubsetCardinality(workers.Keys, s.coord.workers.Keys);
  }

  lemma UnregisterInv(s: State, id: string)
    requires Inv(s) && !s.phase.Starting?
    ensures Inv(s.(coord := Unregister(s.coord, id)))
  {
    hide ConnsOk, Named, RegistersOk, LeavesOk, UpdatesOk, PhaseOk, TotalsOk, CountsOk, IgnoredOk, DeltasOk;
    FewerWorkers(s, s.coord.workers - {id});
  }

  lemma TakeLeaveInv(s: State)
    requires Inv(s) && Possible(s, TakeLeave)
    ensures Inv(DoTakeLeave(s))
  {
    hide Inv, RegistersOk, UpdatesOk, Named, Gone, Forwarded;
    var l := s.unregisters[0];
    InvQueues(s);
    assert LeavesOk(s.unregisters[1..], s.conns);
    UnregisterInv(s, l.id);
    var s1 := s.(coord := Unregister(s.coord, l.id));
    EnqueueInv(s1, s.registers, s.unregisters[1..]);
    var s2 := s1.(registers := s.registers, unregisters := s.unregisters[1..]);
    assert s2 == s.(unregisters := s.unregisters[1..], coord := Unregister(s.coord, l.id));
    if s.phase == Receiving && l.err {
      AbandonInv(s2);
    }
  }

  /** Before the start there is nothing in flight and nothing recorded. */
  lemma BeforeStart(s: State)
    requires UpdatesOk(s.updates, s.roster) && TotalsOk(s.coord, s.roster, s.phase == Finished(true))
    requires CountsOk(s.expected, s.coord.completed, s.phase == Finished(true), s.counted, s.ignored, s.roster)
    requires s.roster == map[]
    ensures s.updates == [] && s.counted == {} && s.ignored == {} && s.roster.Values == {}
    ensures forall id :: id in s.coord.txsPerWorker ==> s.coord.txsPerWorker[id] == 0 && s.coord.bytesPerWorker[id] == 0
  {
    assert s.roster.Values == {};
    NoUpdates(s.updates, s.roster);
  }

  lemma HeadInRoster(us: seq<Update>, roster: map<string, ConnId>)
    requires UpdatesOk(us, roster) && us != []
    ensures us[0].conn in roster.Values
  {
  }

  lemma NoUpdates(us: seq<Update>, roster: map<string, ConnId>)
    requires UpdatesOk(us, roster) && roster.Values == {}
    ensures us == []
  {
    if us != [] {
      HeadInRoster(us, roster);
      assert false;
    }
  }

  lemma AnswerConn(cfg: Config, k: Conn, ok: bool)
    requires ConnOk(cfg, k) && Identified(k)
    ensures var k' := k.(registered := Some(ok));
      ConnOk(cfg, k') && Stable(k, k') && Quiet(k, k') && (Idle(k) ==> Idle(k')) && Identified(k')
  {
    CP.RemoteFrame(cfg, k, k.(registered := Some(ok)));
  }

  lemma AnswerInv(s: State, c: ConnId, ok: bool)
    requires Inv(s) && s.registers != [] && c == s.registers[0] && c in s.conns
    ensures Inv(SetConn(s, c, s.conns[c].(registered := Some(ok))).(registers := s.registers[1..]))
    ensures Identified(s.conns[c])
  {
    hide Inv, ConnOk, Idle, Quiet, Stable, Fits, Named, LeavesOk, UpdatesOk, Identified;
    InvQueues(s);
    ConnFacts(s, c);
    AnswerConn(s.cfg, s.conns[c], ok);
    var k' := s.conns[c].(registered := Some(ok));
    QuietInv(s, c, k');
    RegistersStable(s.registers, s.conns, c, k');
    LeavesStable(s.unregisters, s.conns, c, k');
    assert RegistersOk(s.registers[1..], s.conns[c := k']);
    EnqueueInv(SetConn(s, c, k'), s.registers[1..], s.unregisters);
  }

  /** The invariant, except that the workers map may have just become full. */
  ghost predicate Enrolled(s: State) {
    && ConnsOk(s.cfg, s.conns, s.coord.txsPerWorker, s.coord.bytesPerWorker, s.updates, s.roster, s.counted, s.ignored)
    && RegistersOk(s.registers, s.conns) && LeavesOk(s.unregisters, s.conns) && UpdatesOk(s.updates, s.roster)
    && s.roster == map[] && s.phase == Waiting && s.expected >= 1 && |s.coord.workers| <= s.expected
    && TotalsOk(s.coord, s.roster, false)
    && CountsOk(s.expected, s.coord.completed, false, s.counted, s.ignored, s.roster)
    && DeltasOk(s.deltas, s.coord.totalTxs, s.coord.totalBytes)
    && Named(s.coord.workers, s.conns)
  }

  lemma AllZero(m: map<string, nat>)
    requires forall id :: id in m ==> m[id] == 0
    ensures SumMap(m) == 0
  {
    SumMapRestrict(m, map[]);
  }

  lemma AllZeroInsert(m: map<string, nat>, id: string)
    requires forall k :: k in m ==> m[k] == 0
    ensures SumMap(m) == 0 && SumMap(m[id := 0]) == 0
  {
    AllZero(m);
    AllZero(m[id := 0]);
  }

  lemma EnrolCoord(c: Coord, id: string, conn: ConnId, expected: nat)
    requires TotalsOk(c, map[], false) && RegisterAnswer(c, expected, id) == Registered
    ensures TotalsOk(Register(c, expected, id, conn), map[], false)
    ensures |Register(c, expected, id, conn).workers| == |c.workers| + 1
  {
    hide TotalsOk;
    EnrolKeys(c, id, conn);
    EnrolTxs(c, id);
    EnrolBytes(c, id);
    ZeroTotals(Register(c, expected, id, conn));
  }

  ghost predicate AllZeroes(m: map<string, nat>) {
    forall id :: id in m ==> m[id] == 0
  }

  lemma ZeroTotals(c: Coord)
    requires AllZeroes(c.txsPerWorker) && AllZeroes(c.bytesPerWorker) && c.totalTxs == 0 && c.totalBytes == 0
    requires c.txsPerWorker.Keys == c.bytesPerWorker.Keys && c.workers.Keys <= c.txsPerWorker.Keys
    ensures TotalsOk(c, map[], false)
  {
    hide SumMap;
  }

  lemma EnrolTxs(c: Coord, id: string)
    requires TotalsOk(c, map[], false)
    ensures c.totalTxs == 0 && AllZeroes(c.txsPerWorker[id := 0])
    ensures c.txsPerWorker[id := 0].Keys == c.txsPerWorker.Keys + {id}
  {
    hide SumMap;
    AllZeroInsert(c.txsPerWorker, id);
  }

  lemma EnrolBytes(c: Coord, id: string)
    requires TotalsOk(c, map[], false)
    ensures c.totalBytes == 0 && AllZeroes(c.bytesPerWorker[id := 0])
    ensures c.bytesPerWorker[id := 0].Keys == c.txsPerWorker.Keys + {id}
  {
    hide SumMap;
    AllZeroInsert(c.bytesPerWorker, id);
  }

  lemma EnrolKeys(c: Coord, id: string, conn: ConnId)
    requires TotalsOk(c, map[], false) && id !in c.workers
    ensures |c.workers[id := conn]| == |c.workers| + 1
    ensures c.workers[id := conn].Keys <= c.txsPerWorker.Keys + {id}
  {
    hide SumMap;
    assert c.workers[id := conn].Keys == c.workers.Keys + {id};
  }

  /** Without a roster every connection is idle, whatever the totals are. */
  lemma IdleConns(s: State, txs: map<string, nat>, bytes: map<string, nat>)
    requires ConnsOk(s.cfg, s.conns, s.coord.txsPerWorker, s.coord.bytesPerWorker, s.updates, s.roster, s.counted, s.ignored)
    requires s.roster == map[]
    ensures ConnsOk(s.cfg, s.conns, txs, bytes, s.updates, s.roster, s.counted, s.ignored)
  {
    hide ConnOk, Flowing, Idle;
    assert s.roster.Values == {};
  }

  lemma EnrolOne(s: State, c: ConnId)
    requires Inv(s) && s.phase == Waiting && c in s.conns && Identified(s.conns[c])
    requires RegisterAnswer(s.coord, s.expected, s.conns[c].rid) == Registered
    ensures Enrolled(s.(coord := Register(s.coord, s.expected, s.conns[c].rid, c)))
  {
    hide ConnsOk, RegistersOk, LeavesOk, UpdatesOk, TotalsOk, CountsOk, IgnoredOk, DeltasOk, StartedAll;
    var c' := Register(s.coord, s.expected, s.conns[c].rid, c);
    assert s.roster == map[];
    IdleConns(s, c'.txsPerWorker, c'.bytesPerWorker);
    EnrolCoord(s.coord, s.conns[c].rid, c, s.expected);
    assert Named(c'.workers, s.conns);
  }

  lemma EnrolledPlace(s: State, c: ConnId, k: Conn, roster: map<string, ConnId>)
    requires ConnOk(s.cfg, k) && Idle(k) && Named(roster, s.conns) && c in s.conns && k == s.conns[c]
    requires forall id :: id in roster ==>
               && id in s.coord.txsPerWorker && id in s.coord.bytesPerWorker
               && s.coord.txsPerWorker[id] == 0 && s.coord.bytesPerWorker[id] == 0
    ensures Placed(k, c, s.coord.txsPerWorker, s.coord.bytesPerWorker, [], roster, false, false)
  {
    hide ConnOk, Flowing, Idle;
    if c in roster.Values {
      var id :| id in roster && roster[id] == c;
      IdleFlows(s.cfg, k);
    }
  }

  lemma EnrolledZero(s: State)
    requires Enrolled(s)
    ensures s.updates == [] && s.counted == {} && s.ignored == {} && s.roster.Values == {}
    ensures forall id :: id in s.coord.workers ==>
              && id in s.coord.txsPerWorker && id in s.coord.bytesPerWorker
              && s.coord.txsPerWorker[id] == 0 && s.coord.bytesPerWorker[id] == 0
  {
    hide ConnsOk, RegistersOk, LeavesOk, UpdatesOk, DeltasOk, CountsOk, Named;
    BeforeStart(s);
  }

  lemma LaunchConns(s: State)
    requires Enrolled(s)
    ensures ConnsOk(s.cfg, s.conns, s.coord.txsPerWorker, s.coord.bytesPerWorker, [], s.coord.workers, {}, {})
  {
    hide ConnOk, Flowing, Idle, RegistersOk, LeavesOk, UpdatesOk, DeltasOk, TotalsOk, CountsOk, Named;
    EnrolledZero(s);
    forall c | c in s.conns
      ensures ConnOk(s.cfg, s.conns[c])
      ensures Placed(s.conns[c], c, s.coord.txsPerWorker, s.coord.bytesPerWorker, [], s.coord.workers, false, false)
    {
      EnrolledPlace(s, c, s.conns[c], s.coord.workers);
    }
  }

  lemma LaunchTotals(s: State)
    requires Enrolled(s)
    ensures TotalsOk(s.coord, s.coord.workers, false)
    ensures CountsOk(s.expected, s.coord.completed, false, s.counted, s.ignored, s.coord.workers)
    ensures s.updates == [] && s.counted == {} && s.ignored == {}
  {
    hide ConnsOk, RegistersOk, LeavesOk, DeltasOk, SumMap;
    BeforeStart(s);
  }

  lemma LaunchInv(s: State)
    requires Enrolled(s) && |s.coord.workers| >= s.expected
    ensures Inv(s.(roster := s.coord.workers, phase := Starting(s.coord.workers.Values, None)))
  {
    hide ConnsOk, Named, RegistersOk, LeavesOk, DeltasOk, TotalsOk, CountsOk;
    var s' := s.(roster := s.coord.workers, phase := Starting(s.coord.workers.Values, None));
    LaunchTotals(s);
    LaunchConns(s);
    assert s'.roster.Values - s'.roster.Values == {};
    assert |s'.roster| >= 1;
  }

  lemma TakeRegisterInv(s: State)
    requires Inv(s) && Possible(s, TakeRegister)
    ensures Inv(DoTakeRegister(s))
  {
    hide Inv, Identified;
    var c := s.registers[0];
    var k := s.conns[c];
    var ok := RegisterAnswer(s.coord, s.expected, k.rid) == Registered;
    AnswerInv(s, c, ok);
    var s1 := SetConn(s, c, k.(registered := Some(ok))).(registers := s.registers[1..]);
    assert Identified(s1.conns[c]) by {
      assert s1.conns[c].rid == k.rid && s1.conns[c].wid == k.wid && s1.conns[c].r == k.r;
      IdentifiedFields(k, s1.conns[c]);
    }
    if ok {
      EnrolOne(s1, c);
      var s2 := s1.(coord := Register(s.coord, s.expected, k.rid, c));
      if |s2.coord.workers| >= s.expected {
        LaunchInv(s2);
      } else {
        EnrolledInv(s2);
      }
    } else {
      InvPhase(s);
    }
  }

  lemma IdentifiedFields(k: Conn, k': Conn)
    requires Identified(k) && k'.rid == k.rid && k'.wid == k.wid && k'.r == k.r
    ensures Identified(k')
  {
  }

  lemma EnrolledInv(s: State)
    requires Enrolled(s) && |s.coord.workers| < s.expected
    ensures Inv(s)
  {
    hide ConnsOk, RegistersOk, LeavesOk, UpdatesOk, TotalsOk, CountsOk, DeltasOk, StartedAll;
    EnrolledZero(s);
  }

  // ------------------------------------------------------------ updates

  /** What the invariant says about the next update: who sent it, and that it can only raise what is recorded. */
  ghost predicate HeadOk(s: State, u: Update) {
    && s.updates != [] && u.conn in s.roster.Values && u.conn in s.conns
    && u.msg.id == s.conns[u.conn].wid && IsReport(u.msg)
    && u.msg.id in s.coord.txsPerWorker && u.msg.id in s.coord.bytesPerWorker
    && Queued(s.updates, u.conn) == [u.msg] + Queued(s.updates[1..], u.conn)
    && G.Below(Recorded(s.coord.txsPerWorker, s.coord.bytesPerWorker, u.msg.id), Rep(u.msg))
    && (u.msg.state == Completed ==> u.conn !in s.counted && u.conn !in s.ignored)
  }

  lemma HeadUpdate(s: State)
    requires Inv(s) && s.updates != []
    ensures HeadOk(s, s.updates[0])
  {
    var u := s.updates[0];
    InvQueues(s);
    assert u.conn in s.roster.Values;
    assert u.conn in s.conns;
    AtConn(s, u.conn);
    HeadFits(s, u);
  }

  lemma HeadFits(s: State, u: Update)
    requires s.updates != [] && u == s.updates[0] && u.conn in s.roster.Values && u.conn in s.conns
    requires Fits(s, u.conn, s.conns[u.conn])
    ensures HeadOk(s, u)
  {
    hide ConnOk;
    var k := s.conns[u.conn];
    var q := Queued(s.updates, u.conn);
    assert q[0] == u.msg && (q + Unread(k))[0] == u.msg;
  }

  /** The sender of the next update, after that update has been dequeued. */
  lemma TakeOwn(s: State, known: bool)
    requires s.updates != [] && HeadOk(s, s.updates[0])
    requires Fits(s, s.updates[0].conn, s.conns[s.updates[0].conn])
    ensures var u := s.updates[0];
      var done := u.msg.state == Completed;
      var coord := if known then Record(s.coord, u.msg) else s.coord;
      Placed(s.conns[u.conn], u.conn, coord.txsPerWorker, coord.bytesPerWorker, s.updates[1..], s.roster,
             u.conn in s.counted || (known && done), u.conn in s.ignored || (!known && done))
  {
    hide ConnOk, Flowing, Grows;
    var u := s.updates[0];
    var k := s.conns[u.conn];
    var base, q := Recorded(s.coord.txsPerWorker, s.coord.bytesPerWorker, k.wid), Queued(s.updates, u.conn);
    assert q[1..] == Queued(s.updates[1..], u.conn);
    RecordExact(s.coord, u.msg);
    if u.msg.state == Testing {
      TakeTesting(k, base, q, u.conn in s.counted, u.conn in s.ignored);
    } else {
      TakeCompleted(k, base, q, u.conn in s.counted, u.conn in s.ignored);
    }
  }

  /** Another connection: neither its queue nor its recorded totals change. */
  lemma TakeOther(s: State, d: ConnId, coord: Coord)
    requires s.updates != [] && HeadOk(s, s.updates[0]) && d in s.conns && d != s.updates[0].conn
    requires Fits(s, d, s.conns[d]) && Fits(s, s.updates[0].conn, s.conns[s.updates[0].conn])
    requires coord == s.coord || coord == Record(s.coord, s.updates[0].msg)
    ensures Placed(s.conns[d], d, coord.txsPerWorker, coord.bytesPerWorker, s.updates[1..], s.roster,
                   d in s.counted, d in s.ignored)
  {
    hide ConnOk, Flowing, Idle, Grows;
    RecordExact(s.coord, s.updates[0].msg);
    assert Queued(s.updates, d) == Queued(s.updates[1..], d);
    if d in s.roster.Values {
      var k := s.conns[d];
      assert k.wid != s.updates[0].msg.id;
      assert Recorded(coord.txsPerWorker, coord.bytesPerWorker, k.wid)
          == Recorded(s.coord.txsPerWorker, s.coord.bytesPerWorker, k.wid);
    }
  }

  lemma RecordTotals(c: Coord, m: WorkerMsg, roster: map<string, ConnId>)
    requires m.id in c.txsPerWorker && m.id in c.bytesPerWorker && m.id in roster
    requires G.Below(Recorded(c.txsPerWorker, c.bytesPerWorker, m.id), Rep(m))
    requires TotalsOk(c, roster, false)
    ensures TotalsOk(Record(c, m), roster, false)
  {
    RecordExact(c, m);
    SumMapInsert(c.txsPerWorker, m.id, m.txCount);
    SumMapInsert(c.bytesPerWorker, m.id, m.totalTxBytes);
  }

  /** The state after dequeuing, before the verdict is acted upon. */
  function Taken(s: State, known: bool): State
    requires s.updates != []
  {
    var u := s.updates[0];
    var done := u.msg.state == Completed;
    s.(updates := s.updates[1..],
       coord := if known then (if done then Record(s.coord, u.msg).(completed := s.coord.completed + 1) else Record(s.coord, u.msg))
                else s.coord,
       counted := if known && done then s.counted + {u.conn} else s.counted,
       ignored := if !known && done then s.ignored + {u.conn} else s.ignored)
  }

  lemma HeadConn(s: State)
    requires s.updates != [] && HeadOk(s, s.updates[0])
    ensures s.updates[0].conn in s.conns
  {
  }

  lemma TakenConn(s: State, known: bool, d: ConnId)
    requires Inv(s) && s.updates != [] && HeadOk(s, s.updates[0]) && d in s.conns
    ensures var t := Taken(s, known);
      && ConnOk(s.cfg, s.conns[d])
      && Placed(s.conns[d], d, t.coord.txsPerWorker, t.coord.bytesPerWorker, t.updates, s.roster, d in t.counted, d in t.ignored)
  {
    hide Inv, Placed, ConnOk, HeadOk, Grows, Record;
    var u := s.updates[0];
    var coord := if known then Record(s.coord, u.msg) else s.coord;
    HeadConn(s);
    AtConn(s, u.conn);
    AtConn(s, d);
    if d == u.conn {
      TakeOwn(s, known);
    } else {
      TakeOther(s, d, coord);
    }
  }

  lemma TakenConns(s: State, known: bool)
    requires Inv(s) && s.updates != [] && HeadOk(s, s.updates[0])
    ensures var t := Taken(s, known);
      ConnsOk(t.cfg, t.conns, t.coord.txsPerWorker, t.coord.bytesPerWorker, t.updates, t.roster, t.counted, t.ignored)
  {
    hide Inv, Placed, ConnOk, HeadOk, Record;
    var t := Taken(s, known);
    forall d | d in t.conns
      ensures ConnOk(t.cfg, t.conns[d])
      ensures Placed(t.conns[d], d, t.coord.txsPerWorker, t.coord.bytesPerWorker, t.updates, t.roster, d in t.counted, d in t.ignored)
    {
      TakenConn(s, known, d);
    }
  }

  lemma TakenCounts(s: State, known: bool)
    requires CountsOk(s.expected, s.coord.completed, false, s.counted, s.ignored, s.roster)
    requires s.updates != [] && HeadOk(s, s.updates[0])
    ensures var t := Taken(s, known);
      CountsOk(t.expected, t.coord.completed, t.coord.completed >= t.expected, t.counted, t.ignored, t.roster)
  {
  }

  lemma TakenIgnored(s: State, known: bool)
    requires IgnoredOk(s.ignored, s.conns, s.coord.workers)
    requires s.updates != [] && HeadOk(s, s.updates[0])
    requires known <==> s.updates[0].msg.id in s.coord.workers
    ensures IgnoredOk(Taken(s, known).ignored, s.conns, s.coord.workers)
  {
  }

  lemma TakeUpdateShape(s: State, known: bool)
    requires Possible(s, TakeUpdate) && IsReport(s.updates[0].msg) && (known <==> s.updates[0].msg.id in s.coord.workers)
    ensures TakenShape(s, known)
  {
  }

  lemma TakenInv(s: State, known: bool)
    requires s.updates != [] && s.phase == Receiving && (known <==> s.updates[0].msg.id in s.coord.workers)
    requires Taken(s, known).coord.completed < s.expected
    requires Inv(s)
    ensures Inv(Taken(s, known))
  {
    hide Inv, ConnsOk, Named, RegistersOk, LeavesOk, UpdatesOk, PhaseOk, TotalsOk, CountsOk, IgnoredOk, DeltasOk, HeadOk, SumMap;
    HeadUpdate(s);
    TakenConns(s, known);
    InvTotals(s);
    InvQueues(s);
    TakenCounts(s, known);
    TakenIgnored(s, known);
    TakenTotals(s, known);
    TakenUpdates(s, known);
    InvPhase(s);
    Assemble(Taken(s, known));
  }

  lemma TakenUpdates(s: State, known: bool)
    requires UpdatesOk(s.updates, s.roster) && s.updates != []
    ensures UpdatesOk(Taken(s, known).updates, s.roster)
  {
  }

  /** The last Completed update: everything is published and the run succeeds. */
  lemma TakenLast(s: State)
    requires s.updates != [] && s.phase == Receiving && s.updates[0].msg.id in s.coord.workers
    requires Taken(s, true).coord.completed >= s.expected
    requires Inv(s)
    ensures var t := Taken(s, true);
      Inv(t.(phase := Finished(true), coord := Publish(t.coord), deltas := PublishDeltas(t.coord, t.deltas)))
  {
    hide Inv, ConnsOk, Named, RegistersOk, LeavesOk, UpdatesOk, PhaseOk, TotalsOk, CountsOk, IgnoredOk, DeltasOk, HeadOk, SumMap;
    HeadUpdate(s);
    TakenConns(s, true);
    InvTotals(s);
    InvQueues(s);
    InvPhase(s);
    TakenCounts(s, true);
    TakenIgnored(s, true);
    TakenTotals(s, true);
    TakenUpdates(s, true);
    var t := Taken(s, true);
    PublishOk(t.coord, t.roster, t.deltas, true);
    FinishPhase(s);
    Assemble(t.(phase := Finished(true), coord := Publish(t.coord), deltas := PublishDeltas(t.coord, t.deltas)));
  }

  lemma FinishPhase(s: State)
    requires s.phase == Receiving && PhaseOk(s.phase, s.conns, s.coord.workers, s.roster, s.expected)
    ensures PhaseOk(Finished(true), s.conns, s.coord.workers, s.roster, s.expected)
  {
    hide StartedAll;
  }

  lemma Assemble(s: State)
    requires ConnsOk(s.cfg, s.conns, s.coord.txsPerWorker, s.coord.bytesPerWorker, s.updates, s.roster, s.counted, s.ignored)
    requires Frame(s)
    ensures Inv(s)
  {
    hide Inv, Frame, ConnsOk;
    InvIsFrame(s);
  }

  lemma TakeUpdateInv(s: State)
    requires Inv(s) && Possible(s, TakeUpdate)
    ensures Inv(DoTakeUpdate(s))
  {
    hide Inv;
    var known := s.updates[0].msg.id in s.coord.workers;
    HeadUpdate(s);
    TakeUpdateShape(s, known);
    hide HeadOk, DoTakeUpdate;
    if Taken(s, known).coord.completed < s.expected {
      TakenInv(s, known);
    } else {
      assert known && s.updates[0].msg.state == Completed by {
        InvTotals(s);
      }
      TakenLast(s);
    }
  }

  lemma TakenTotals(s: State, known: bool)
    requires s.updates != [] && HeadOk(s, s.updates[0])
    requires TotalsOk(s.coord, s.roster, false) && Named(s.roster, s.conns)
    requires DeltasOk(s.deltas, s.coord.totalTxs, s.coord.totalBytes)
    ensures TotalsOk(Taken(s, known).coord, s.roster, false)
    ensures DeltasOk(s.deltas, Taken(s, known).coord.totalTxs, Taken(s, known).coord.totalBytes)
  {
    var u := s.updates[0];
    assert u.msg.id in s.roster;
    RecordTotals(s.coord, u.msg, s.roster);
  }

  /** `Taken` is the step without its verdict; with real Workers the verdict is never a failure. */
  ghost predicate TakenShape(s: State, known: bool)
    requires Possible(s, TakeUpdate)
  {
    var t := Taken(s, known);
    var m := s.updates[0].msg;
    DoTakeUpdate(s) ==
      if known && m.state == Completed && t.coord.completed >= s.expected then
        t.(phase := Finished(true), coord := Publish(t.coord), deltas := PublishDeltas(t.coord, t.deltas))
      else t
  }

  // ------------------------------------------------------------ every reachable state

  lemma StepInv(s: State, a: Action)
    requires Inv(s) && Possible(s, a)
    ensures Inv(Next(s, a))
  {
    hide Inv;
    match a
    case Connect(c, wid) => ConnectInv(s, c, wid);
    case Local(c, step) => LocalInv(s, c, step);
    case Request(c) => RequestInv(s, c);
    case Forward(c) => ForwardInv(s, c);
    case Depart(c) => DepartInv(s, c);
    case TakeRegister => TakeRegisterInv(s);
    case TakeLeave => TakeLeaveInv(s);
    case TakeUpdate => TakeUpdateInv(s);
    case Progress => ProgressInv(s);
    case Abort => AbandonInv(s);
    case StartOne(c) => StartOneInv(s, c);
    case StartAnswered => StartAnsweredInv(s);
    case StartTimeout => AbandonInv(s);
    case FailOne(c) => FailOneInv(s, c);
    case FailDone => FailDoneInv(s);
    case StopOne(c) => StopOneInv(s, c);
  }

  lemma InitInv(expected: nat, cfg: Config)
    requires expected >= 1
    ensures Inv(Init(expected, cfg))
  {
  }

  lemma {:induction false} RunInv(expected: nat, cfg: Config, run: seq<State>, k: nat)
    requires expected >= 1 && IsRun(expected, cfg, run) && k < |run|
    ensures Inv(run[k]) && run[k].expected == expected && run[k].cfg == cfg
  {
    hide Inv;
    if k == 0 {
      InitInv(expected, cfg);
    } else {
      RunInv(expected, cfg, run, k - 1);
      assert Follows(run[k - 1], run[k - 1 + 1]);
      var a :| Possible(run[k - 1], a) && run[k] == Next(run[k - 1], a);
      StepInv(run[k - 1], a);
      ParametersFixed(run[k - 1], a);
    }
  }

  lemma ParametersFixed(s: State, a: Action)
    requires Possible(s, a)
    ensures Next(s, a).expected == s.expected && Next(s, a).cfg == s.cfg
  {
    hide Connection.Do, Connection.Enabled, SumMap, Register, Unregister, CoordinatorModel.Update, UpdateVerdict;
  }
}
