/** What holds over whole runs of a load test, whatever the interleaving. */
module ProtocolTheorems {
  import opened Basics
  import opened LoadConfig
  import opened ConfigCheck
  import opened CoordinatorModel
  import opened Connection
  import opened Flow
  import opened Protocol
  import opened ProtocolProofs
  import CP = ConnectionProofs
  import G = GroupModel

  // ------------------------------------------------------------ the start barrier

  lemma RosterStep(s: State, a: Action)
    requires Inv(s) && Possible(s, a)
    ensures Next(s, a).roster == s.roster || (s.roster == map[] && Next(s, a).roster == Next(s, a).coord.workers)
  {
    hide Inv, StartedAll, Connection.Do, Connection.Enabled, SumMap;
    InvPhase(s);
    match a
    case TakeRegister =>
    case TakeLeave =>
    case TakeUpdate =>
    case StartAnswered =>
    case _ =>
  }

  /** The roster is the workers map of some earlier moment, and is never replaced. */
  lemma {:induction false} RosterWasWorkers(expected: nat, cfg: Config, run: seq<State>, k: nat)
    requires expected >= 1 && IsRun(expected, cfg, run) && k < |run| && run[k].roster != map[]
    ensures exists j :: 0 <= j <= k && run[j].coord.workers == run[k].roster
  {
    hide Inv, Next, Possible;
    if k > 0 {
      RunInv(expected, cfg, run, k - 1);
      assert Follows(run[k - 1], run[k - 1 + 1]);
      var a :| Possible(run[k - 1], a) && run[k] == Next(run[k - 1], a);
      RosterStep(run[k - 1], a);
      if run[k].roster == run[k - 1].roster {
        RosterWasWorkers(expected, cfg, run, k - 1);
      }
    }
  }

  lemma LaunchedIsStarted(s: State, c: ConnId)
    requires Inv(s) && c in s.conns && Launched(s.conns[c])
    ensures c in s.roster.Values && HasTesting(s.conns[c])
    ensures s.conns[c].cfg == Some(s.cfg) && Validate(s.cfg).Ok?
    ensures |s.conns[c].group.stats| == Transactors(s.cfg)
  {
    AtConn(s, c);
    hide Inv, Flowing, Validate, G.Inv;
  }

  /**
   * No worker starts its transactors before the expected number of distinct IDs, its own among them, stood in the
   * workers map at once; and all that start run the same validated configuration.
   */
  lemma StartBarrier(expected: nat, cfg: Config, run: seq<State>, k: nat, c: ConnId)
    requires expected >= 1 && IsRun(expected, cfg, run)
    requires k < |run| && c in run[k].conns && Launched(run[k].conns[c])
    ensures exists j :: 0 <= j <= k && |run[j].coord.workers| == expected && c in run[j].coord.workers.Values
    ensures run[k].conns[c].cfg == Some(cfg) && Validate(cfg).Ok?
  {
    RunInv(expected, cfg, run, k);
    LaunchedIsStarted(run[k], c);
    InvPhase(run[k]);
    hide Inv, Next, Possible;
    RosterWasWorkers(expected, cfg, run, k);
    var j :| 0 <= j <= k && run[j].coord.workers == run[k].roster;
    assert |run[j].coord.workers| == expected;
  }

  /** Each connection is sent at most one Testing, right after its Accepted; nothing follows a Rejected or a Failed. */
  lemma DownwardDiscipline(expected: nat, cfg: Config, run: seq<State>, k: nat, c: ConnId, i: nat, j: nat)
    requires expected >= 1 && IsRun(expected, cfg, run) && k < |run| && c in run[k].conns
    requires i < j < |run[k].conns[c].down|
    ensures var down := run[k].conns[c].down;
      && down[i].state != Rejected && down[i].state != Failed
      && (down[j].state == Testing ==> i == 0 && down[i].state == Accepted && down[i].config == Some(cfg))
      && !(down[i].state == Testing && down[j].state == Testing)
  {
    hide Inv, IsRun, DownLegal;
    RunInv(expected, cfg, run, k);
    DownIsLegal(run[k], c);
    LegalDown(run[k].conns[c].down, cfg, i, j);
  }

  lemma DownIsLegal(s: State, c: ConnId)
    requires Inv(s) && c in s.conns
    ensures DownLegal(s.conns[c].down, s.cfg)
  {
    hide Inv, DownLegal, UpOk, RemoteOk, WorkerOk;
    ConnFacts(s, c);
  }

  lemma LegalDown(down: seq<WorkerMsg>, cfg: Config, i: nat, j: nat)
    requires DownLegal(down, cfg) && i < j < |down|
    ensures down[i].state != Rejected && down[i].state != Failed
    ensures down[j].state == Testing ==> i == 0 && down[i].state == Accepted && down[i].config == Some(cfg)
    ensures !(down[i].state == Testing && down[j].state == Testing)
  {
  }

  // ------------------------------------------------------------ success

  /** Everything a started worker must have done before the coordinator may count it. */
  ghost predicate FinishedCleanly(cfg: Config, k: Conn) {
    && k.cfg == Some(cfg) && Launched(k) && cfg.connections >= 0 && |k.group.stats| == Transactors(cfg)
    && G.Waited(k.group) && !k.group.waitErr
    && (exists i :: 0 <= i < |k.up| && k.up[i].state == Completed)
    && (forall i, j :: 0 <= i < j < |k.up| ==> !(k.up[i].state == Completed && k.up[j].state == Completed))
  }

  lemma CountedConn(s: State, c: ConnId)
    requires Inv(s) && c in s.counted && c in s.conns
    ensures FinishedCleanly(s.cfg, s.conns[c])
    ensures c !in s.ignored
    ensures s.conns[c].wid in s.coord.txsPerWorker && s.conns[c].wid in s.coord.bytesPerWorker
    ensures Recorded(s.coord.txsPerWorker, s.coord.bytesPerWorker, s.conns[c].wid) == G.Totals(s.conns[c].group)
  {
    AtConn(s, c);
    InvTotals(s);
    CountedInRoster(s, c);
    CleanConn(s, c);
  }

  lemma CountedInRoster(s: State, c: ConnId)
    requires CountsOk(s.expected, s.coord.completed, s.phase == Finished(true), s.counted, s.ignored, s.roster)
    requires c in s.counted
    ensures c in s.roster.Values
  {
  }

  lemma CleanConn(s: State, c: ConnId)
    requires c in s.conns && Fits(s, c, s.conns[c]) && c in s.roster.Values && c in s.counted
    ensures FinishedCleanly(s.cfg, s.conns[c])
    ensures c !in s.ignored
    ensures s.conns[c].wid in s.coord.txsPerWorker && s.conns[c].wid in s.coord.bytesPerWorker
    ensures Recorded(s.coord.txsPerWorker, s.coord.bytesPerWorker, s.conns[c].wid) == G.Totals(s.conns[c].group)
  {
    hide Chain, Grows, Unread, DownOk;
    var k := s.conns[c];
    assert Forwarded(k) && Delivered(k) && k.reported;
  }

  lemma AllCounted(s: State)
    requires Inv(s) && s.phase == Finished(true)
    ensures s.counted == s.roster.Values && |s.roster| == s.expected
  {
    InvTotals(s);
    InvPhase(s);
    InvQueues(s);
    hide Inv;
    RosterSize(s);
    SubsetCardinality(s.counted, s.roster.Values);
  }

  lemma RosterSize(s: State)
    requires Inv(s)
    ensures |s.roster.Values| == |s.roster|
  {
    hide Inv;
    InvQueues(s);
    var at := (id: string) => if id in s.roster then s.roster[id] else 0;
    assert s.roster.Values == Image(s.roster.Keys, at) by {
      forall c | c in s.roster.Values ensures c in Image(s.roster.Keys, at) {
        var id :| id in s.roster && s.roster[id] == c;
        assert at(id) == c;
      }
    }
    ImageSize(s.roster.Keys, at);
  }

  /**
   * Success safety: the coordinator succeeds only when the expected number of distinct workers, all registered at one
   * moment, was started, each of them sent exactly one Completed, and each one's group waited without an error.
   */
  lemma SuccessSafety(expected: nat, cfg: Config, run: seq<State>, k: nat)
    requires expected >= 1 && IsRun(expected, cfg, run) && k < |run| && run[k].phase == Finished(true)
    ensures exists j :: 0 <= j <= k && run[j].coord.workers == run[k].roster
    ensures |run[k].roster| == expected && run[k].coord.completed == expected
    ensures forall id :: id in run[k].roster ==>
              && run[k].roster[id] in run[k].conns
              && run[k].conns[run[k].roster[id]].wid == id
              && FinishedCleanly(cfg, run[k].conns[run[k].roster[id]])
  {
    var s := run[k];
    RunInv(expected, cfg, run, k);
    AllCounted(s);
    InvTotals(s);
    InvQueues(s);
    InvPhase(s);
    RosterWasWorkers(expected, cfg, run, k);
    hide Inv, FinishedCleanly, Next, Possible;
    forall id | id in s.roster
      ensures s.roster[id] in s.conns && s.conns[s.roster[id]].wid == id && FinishedCleanly(cfg, s.conns[s.roster[id]])
    {
      assert s.roster[id] in s.roster.Values;
      CountedConn(s, s.roster[id]);
    }
  }

  // ------------------------------------------------------------ conservation

  /** The final transaction count of each started worker: the sum over its own transactors. */
  function FinalTxs(s: State): map<string, nat>
    requires forall id :: id in s.roster ==> s.roster[id] in s.conns
  {
    map id | id in s.roster :: Sum(G.TxCounts(s.conns[s.roster[id]].group))
  }

  function FinalBytes(s: State): map<string, nat>
    requires forall id :: id in s.roster ==> s.roster[id] in s.conns
  {
    map id | id in s.roster :: Sum(G.TxBytes(s.conns[s.roster[id]].group))
  }

  /**
   * Conservation from the transactors to the coordinator: on success the published totals are the sums, over the
   * started workers and all their transactors, of what each transactor recorded. IDs that departed or registered
   * again before the start contribute nothing.
   */
  lemma EndToEndConservation(expected: nat, cfg: Config, run: seq<State>, k: nat)
    requires expected >= 1 && IsRun(expected, cfg, run) && k < |run| && run[k].phase == Finished(true)
    ensures forall id :: id in run[k].roster ==> run[k].roster[id] in run[k].conns
    ensures run[k].coord.totalTxs == SumMap(FinalTxs(run[k]))
    ensures run[k].coord.totalBytes == SumMap(FinalBytes(run[k]))
  {
    RunInv(expected, cfg, run, k);
    Conservation(run[k]);
  }

  lemma Conservation(s: State)
    requires Inv(s) && s.phase == Finished(true)
    ensures forall id :: id in s.roster ==> s.roster[id] in s.conns
    ensures s.coord.totalTxs == SumMap(FinalTxs(s)) && s.coord.totalBytes == SumMap(FinalBytes(s))
  {
    AllCounted(s);
    InvTotals(s);
    InvQueues(s);
    hide Inv;
    forall id | id in s.roster
      ensures id in s.coord.txsPerWorker && id in s.coord.bytesPerWorker
      ensures s.coord.txsPerWorker[id] == FinalTxs(s)[id] && s.coord.bytesPerWorker[id] == FinalBytes(s)[id]
    {
      assert s.roster[id] in s.roster.Values;
      CountedConn(s, s.roster[id]);
    }
    SumMapRestrict(s.coord.txsPerWorker, FinalTxs(s));
    SumMapRestrict(s.coord.bytesPerWorker, FinalBytes(s));
  }

  lemma WorkerTotals(s: State, id: string)
    requires Inv(s) && s.phase == Finished(true) && id in s.roster && s.roster[id] in s.conns
    ensures Usable(s.cfg)
    ensures var g := s.conns[s.roster[id]].group;
      && s.cfg.size * Sum(G.TxCounts(g)) <= Sum(G.TxBytes(g))
      && (s.cfg.count > 0 ==> Sum(G.TxCounts(g)) <= Transactors(s.cfg) * s.cfg.count)
  {
    AllCounted(s);
    InvTotals(s);
    assert s.roster[id] in s.roster.Values;
    CountedConn(s, s.roster[id]);
    ConnFacts(s, s.roster[id]);
    hide Inv, Validate, UpOk, DownOk, RemoteOk;
    G.WaitedTotals(s.cfg, s.conns[s.roster[id]].group);
  }

  /** On success the published bytes pay for the published transactions, and the count cap bounds the grand total. */
  lemma PublishedBounds(expected: nat, cfg: Config, run: seq<State>, k: nat)
    requires expected >= 1 && IsRun(expected, cfg, run) && k < |run| && run[k].phase == Finished(true)
    ensures Usable(cfg) && cfg.size * run[k].coord.totalTxs <= run[k].coord.totalBytes
    ensures cfg.count > 0 ==> run[k].coord.totalTxs <= expected * (Transactors(cfg) * cfg.count)
  {
    var s := run[k];
    RunInv(expected, cfg, run, k);
    Conservation(s);
    AllCounted(s);
    hide Inv, Next, Possible, Usable;
    forall id | id in s.roster
      ensures Usable(cfg)
      ensures cfg.size * FinalTxs(s)[id] <= FinalBytes(s)[id]
      ensures cfg.count > 0 ==> FinalTxs(s)[id] <= Transactors(cfg) * cfg.count
    {
      WorkerTotals(s, id);
    }
    assert Usable(cfg) by {
      assert |s.roster.Keys| == |s.roster| > 0;
      var id :| id in s.roster.Keys;
    }
    UsableBounds(s, cfg);
  }

  lemma UsableBounds(s: State, cfg: Config)
    requires Usable(cfg) && forall id :: id in s.roster ==> s.roster[id] in s.conns
    requires forall id :: id in s.roster ==> cfg.size * FinalTxs(s)[id] <= FinalBytes(s)[id]
    requires cfg.count > 0 ==> forall id :: id in s.roster ==> FinalTxs(s)[id] <= Transactors(cfg) * cfg.count
    ensures cfg.size * SumMap(FinalTxs(s)) <= SumMap(FinalBytes(s))
    ensures cfg.count > 0 ==> SumMap(FinalTxs(s)) <= |s.roster| * (Transactors(cfg) * cfg.count)
  {
    hide SumMap;
    SumMapScaled(FinalTxs(s), FinalBytes(s), cfg.size);
    if cfg.count > 0 {
      assert Transactors(cfg) * cfg.count >= 0;
      SumMapBounded(FinalTxs(s), Transactors(cfg) * cfg.count);
      assert FinalTxs(s).Keys == s.roster.Keys;
      assert |FinalTxs(s)| == |FinalTxs(s).Keys| == |s.roster.Keys| == |s.roster|;
    }
  }

  // ------------------------------------------------------------ completion accounting

  ghost predicate OneOf(a: bool, b: bool, c: bool) {
    (a || b || c) && !(a && b) && !(a && c) && !(b && c)
  }

  /**
   * At every reachable state, the Completed update that a connection has passed on is in exactly one place: counted,
   * still queued as that connection's last update, or ignored. Before it is passed on it is nowhere.
   */
  lemma CompletionAccounting(expected: nat, cfg: Config, run: seq<State>, k: nat, c: ConnId)
    requires expected >= 1 && IsRun(expected, cfg, run) && k < |run| && c in run[k].conns
    ensures var s := run[k];
      var queued := CompletedLast(Queued(s.updates, c));
      && (Forwarded(s.conns[c]) ==> OneOf(c in s.counted, c in s.ignored, queued))
      && (!Forwarded(s.conns[c]) ==> c !in s.counted && c !in s.ignored && !queued)
      && s.coord.completed == |s.counted| <= expected
  {
    var s := run[k];
    RunInv(expected, cfg, run, k);
    AtConn(s, c);
    InvTotals(s);
    hide Inv, Next, Possible, ConnOk, Chain, Grows;
    if c in s.counted || c in s.ignored {
      assert c in s.roster.Values;
    }
  }

  /** The coordinator's branches for failed workers and unexpected states cannot be reached through an update. */
  lemma UpdatesAreReports(expected: nat, cfg: Config, run: seq<State>, k: nat, i: nat)
    requires expected >= 1 && IsRun(expected, cfg, run) && k < |run| && i < |run[k].updates|
    ensures var s := run[k];
      var u := s.updates[i];
      && u.conn in s.roster.Values && u.conn in s.conns && u.msg.id == s.conns[u.conn].wid
      && (u.msg.state == Testing || u.msg.state == Completed)
      && UpdateVerdict(s.coord, expected, u.msg) in {Continue, AllCompleted}
  {
    hide Inv, IsRun;
    RunInv(expected, cfg, run, k);
    QueuedReport(run[k], i);
  }

  lemma QueuedReport(s: State, i: nat)
    requires Inv(s) && i < |s.updates|
    ensures var u := s.updates[i];
      && u.conn in s.roster.Values && u.conn in s.conns && u.msg.id == s.conns[u.conn].wid
      && (u.msg.state == Testing || u.msg.state == Completed)
  {
    hide Inv, ConnOk, Chain, Grows;
    InvQueues(s);
    var u := s.updates[i];
    assert u.conn in s.roster.Values;
    assert u.conn in s.conns;
    AtConn(s, u.conn);
    QueuedMember(s.updates, i);
  }

  lemma {:induction false} QueuedMember(us: seq<Update>, i: nat)
    requires i < |us|
    ensures us[i].msg in Queued(us, us[i].conn)
  {
    if i > 0 {
      QueuedMember(us[1..], i - 1);
    }
  }

  // ------------------------------------------------------------ departures

  /** The unregister request of `c`, sent after a clean completion, is dequeued between `run[j]` and `run[j + 1]`. */
  ghost predicate DepartsAt(run: seq<State>, j: int, c: ConnId) {
    && 0 <= j < |run| - 1 && run[j].unregisters != []
    && run[j].unregisters[0].conn == c && !run[j].unregisters[0].err
    && run[j].phase == Receiving && run[j + 1] == Next(run[j], TakeLeave)
  }

  lemma LeaveIsOwn(s: State, id: string)
    requires Inv(s) && s.unregisters != [] && !s.unregisters[0].err && s.unregisters[0].id == id && id in s.roster
    ensures s.unregisters[0].conn == s.roster[id]
  {
    var l := s.unregisters[0];
    InvQueues(s);
    assert l.conn in s.conns && Forwarded(s.conns[l.conn]);
    ConnFacts(s, l.conn);
    assert l.conn in s.roster.Values;
    hide Inv, ConnOk;
  }

  lemma WorkersStep(s: State, a: Action, id: string)
    requires Inv(s) && Possible(s, a) && Next(s, a).phase == Receiving
    requires id in Next(s, a).roster && id !in Next(s, a).coord.workers
    ensures s.phase == Receiving && s.roster == Next(s, a).roster
    ensures id !in s.coord.workers
            || (a == TakeLeave && s.unregisters != [] && s.unregisters[0].id == id && !s.unregisters[0].err)
  {
    hide Inv, StartedAll, Connection.Do, Connection.Enabled, SumMap;
    InvPhase(s);
    RosterStep(s, a);
    match a
    case TakeRegister =>
    case TakeLeave =>
    case TakeUpdate =>
    case StartAnswered =>
    case _ =>
  }

  /** While updates are being received, a started worker is missing from the map only because it has departed. */
  lemma {:induction false} MissingHasDeparted(expected: nat, cfg: Config, run: seq<State>, k: nat, id: string)
    requires expected >= 1 && IsRun(expected, cfg, run) && k < |run| && run[k].phase == Receiving
    requires id in run[k].roster && id !in run[k].coord.workers
    ensures exists j :: 0 <= j < k && DepartsAt(run, j, run[k].roster[id])
  {
    hide Inv, Next, Possible;
    RunInv(expected, cfg, run, k);
    assert k > 0;
    RunInv(expected, cfg, run, k - 1);
    var p := run[k - 1];
    assert Follows(p, run[k - 1 + 1]);
    var a :| Possible(p, a) && run[k] == Next(p, a);
    WorkersStep(p, a, id);
    if id !in p.coord.workers {
      MissingHasDeparted(expected, cfg, run, k - 1, id);
    } else {
      LeaveNonEmpty(p);
      LeaveIsOwn(p, id);
      assert DepartsAt(run, k - 1, run[k].roster[id]);
    }
  }

  lemma LeaveNonEmpty(s: State)
    requires Possible(s, TakeLeave)
    ensures s.unregisters != []
  {
  }

  lemma OnlyUpdatesIgnore(s: State, a: Action, c: ConnId)
    requires Possible(s, a) && c in Next(s, a).ignored && c !in s.ignored
    ensures s.phase == Receiving && s.updates != []
    ensures s.updates[0].conn == c && s.updates[0].msg.id !in s.coord.workers
  {
    hide Connection.Do, Connection.Enabled, SumMap;
    match a
    case TakeRegister =>
    case TakeLeave =>
    case TakeUpdate =>
    case StartAnswered =>
    case _ =>
  }

  lemma IgnoredStep(s: State, a: Action, c: ConnId)
    requires Inv(s) && Possible(s, a) && c in Next(s, a).ignored && c !in s.ignored
    ensures s.phase == Receiving && c in s.conns && s.conns[c].wid in s.roster && s.roster[s.conns[c].wid] == c
    ensures s.conns[c].wid !in s.coord.workers
  {
    OnlyUpdatesIgnore(s, a, c);
    HeadUpdate(s);
    AtConn(s, c);
    hide Inv, ConnOk, Flowing, Grows;
  }

  /** A Completed update is ignored only because the unregister request of the same connection overtook it. */
  lemma {:induction false} IgnoredWasOvertaken(expected: nat, cfg: Config, run: seq<State>, k: nat, c: ConnId)
    requires expected >= 1 && IsRun(expected, cfg, run) && k < |run| && c in run[k].ignored
    ensures exists j :: 0 <= j < k && DepartsAt(run, j, c)
  {
    hide Inv, Next, Possible;
    assert k > 0;
    RunInv(expected, cfg, run, k - 1);
    var p := run[k - 1];
    assert Follows(p, run[k - 1 + 1]);
    var a :| Possible(p, a) && run[k] == Next(p, a);
    if c in p.ignored {
      IgnoredWasOvertaken(expected, cfg, run, k - 1, c);
    } else {
      IgnoredStep(p, a, c);
      MissingHasDeparted(expected, cfg, run, k - 1, p.conns[c].wid);
    }
  }

  lemma IgnoredGrows(s: State, a: Action)
    requires Possible(s, a)
    ensures s.ignored <= Next(s, a).ignored
  {
    hide Connection.Do, SumMap;
  }

  /** One ignored Completed update rules success out for good: the run can then only fail or wait for ever. */
  lemma {:induction false} IgnoredRulesOutSuccess(expected: nat, cfg: Config, run: seq<State>, j: nat, k: nat)
    requires expected >= 1 && IsRun(expected, cfg, run) && j <= k < |run| && run[j].ignored != {}
    ensures run[k].phase != Finished(true) && run[k].ignored != {}
    decreases k
  {
    hide Inv, Next, Possible;
    RunInv(expected, cfg, run, k);
    if j < k {
      IgnoredRulesOutSuccess(expected, cfg, run, j, k - 1);
      assert Follows(run[k - 1], run[k - 1 + 1]);
      var a :| Possible(run[k - 1], a) && run[k] == Next(run[k - 1], a);
      IgnoredGrows(run[k - 1], a);
    }
    if run[k].phase == Finished(true) {
      NoneIgnored(run[k]);
    }
  }

  lemma NoneIgnored(s: State)
    requires Inv(s) && s.phase == Finished(true)
    ensures s.ignored == {}
  {
    AllCounted(s);
    InvTotals(s);
    hide Inv;
    forall c | c in s.ignored ensures false {
      CountedConn(s, c);
    }
  }

  lemma PlacedIsCounted(s: State, c: ConnId)
    requires Inv(s) && c in s.roster.Values && c in s.conns
    requires Forwarded(s.conns[c]) && Queued(s.updates, c) == []
    ensures c in s.counted || c in s.ignored
  {
    hide Inv, ConnOk, Chain, Grows;
    AtConn(s, c);
  }

  /**
   * Once every started worker's Completed has been passed on and taken off the queue, the coordinator has succeeded if
   * and only if it ignored none of them.
   */
  lemma SuccessExactly(expected: nat, cfg: Config, run: seq<State>, k: nat)
    requires expected >= 1 && IsRun(expected, cfg, run) && k < |run| && run[k].roster != map[]
    requires forall c :: c in run[k].roster.Values ==>
               c in run[k].conns && Forwarded(run[k].conns[c]) && Queued(run[k].updates, c) == []
    ensures run[k].phase == Finished(true) <==> run[k].ignored == {}
  {
    hide Inv, IsRun, Forwarded, Queued;
    var s := run[k];
    RunInv(expected, cfg, run, k);
    if s.phase == Finished(true) {
      NoneIgnored(s);
    } else if s.ignored == {} {
      InvTotals(s);
      InvPhase(s);
      RosterSize(s);
      forall c | c in s.roster.Values ensures c in s.counted {
        PlacedIsCounted(s, c);
      }
      SubsetCardinality(s.roster.Values, s.counted);
    }
  }

  /** A test whose coordinator configuration was validated succeeds only with that many workers, and at least one. */
  lemma ValidatedSuccess(c: CoordinatorConfig, cfg: Config, run: seq<State>, k: nat)
    requires ValidateCoordinator(c).Ok?
    requires IsRun(c.expectWorkers, cfg, run) && k < |run| && run[k].phase == Finished(true)
    ensures |run[k].roster| == c.expectWorkers >= 1 && Validate(cfg).Ok?
    ensures forall id :: id in run[k].roster ==>
              && run[k].roster[id] in run[k].conns
              && |run[k].conns[run[k].roster[id]].group.stats| == |cfg.endpoints| * cfg.connections >= 1
  {
    hide IsRun, Validate, FinishedCleanly;
    SuccessSafety(c.expectWorkers, cfg, run, k);
    RunInv(c.expectWorkers, cfg, run, k);
    forall id | id in run[k].roster
      ensures Validate(cfg).Ok?
      ensures |run[k].conns[run[k].roster[id]].group.stats| == |cfg.endpoints| * cfg.connections >= 1
    {
      CleanlyStarted(cfg, run[k].conns[run[k].roster[id]]);
      LaunchedIsStarted(run[k], run[k].roster[id]);
      ValidIsUsable(cfg);
      CP.TransactorsPositive(cfg);
    }
    assert run[k].roster.Keys != {};
    var id :| id in run[k].roster;
  }

  lemma CleanlyStarted(cfg: Config, k: Conn)
    requires FinishedCleanly(cfg, k)
    ensures Launched(k) && k.cfg == Some(cfg)
  {
  }

  // ------------------------------------------------------------ failures

  /** The group of a started worker can only end with an error. */
  ghost predicate ConnDoomed(k: Conn, i: nat) {
    (k.w == WTesting || k.w == WEnded) && G.Doomed(k.group, i)
  }

  lemma GroupStaysDoomed(cfg: Config, k: Conn, a: Connection.Step, i: nat)
    requires Enabled(cfg, k, a) && ConnDoomed(k, i)
    ensures ConnDoomed(Connection.Do(cfg, k, a), i)
  {
    hide G.Do, G.Enabled, G.Doomed, G.Level, Put, DoAnswered, DoCtrl;
    match a
    case GroupStep(g) => G.StaysDoomed(cfg, k.group, g, i);
    case ReportProgress(o) => ReportStaysDoomed(cfg, k, o, i);
    case Answered(o, o2) => AnswerKeepsGroup(cfg, k, o, o2);
    case TakeCtrl(o) => CtrlKeepsGroup(k, o);
    case _ =>
  }

  lemma ReportStaysDoomed(cfg: Config, k: Conn, o: Write, i: nat)
    requires Enabled(cfg, k, ReportProgress(o)) && ConnDoomed(k, i)
    ensures ConnDoomed(DoReport(cfg, k, o), i)
  {
    G.StaysDoomed(cfg, k.group, G.MakeReport, i);
    G.StaysDoomed(cfg, G.Do(cfg, k.group, G.MakeReport), G.Cancel, i);
    hide G.Level, Put;
  }

  lemma AnswerKeepsGroup(cfg: Config, k: Conn, o: Write, o2: Write)
    requires k.registered.Some?
    ensures DoAnswered(cfg, k, o, o2).group == k.group && DoAnswered(cfg, k, o, o2).w == k.w
  {
  }

  lemma CtrlKeepsGroup(k: Conn, o: Write)
    requires k.ctrl != []
    ensures DoCtrl(k, o).group == k.group && DoCtrl(k, o).w == k.w
  {
  }

  /** Actions other than a connection's own steps leave its Worker and group alone. */
  lemma NextStaysDoomed(s: State, a: Action, c: ConnId, i: nat)
    requires Possible(s, a) && c in s.conns && ConnDoomed(s.conns[c], i)
    ensures c in Next(s, a).conns && ConnDoomed(Next(s, a).conns[c], i)
  {
    if a.Local? && a.c == c {
      GroupStaysDoomed(s.cfg, s.conns[c], a.step, i);
    } else {
      OthersKeepGroup(s, a, c);
    }
    hide Connection.Do, Connection.Enabled, SumMap, G.Doomed;
  }

  lemma OthersKeepGroup(s: State, a: Action, c: ConnId)
    requires Possible(s, a) && c in s.conns && !(a.Local? && a.c == c)
    ensures c in Next(s, a).conns
    ensures Next(s, a).conns[c].group == s.conns[c].group && Next(s, a).conns[c].w == s.conns[c].w
  {
    hide Connection.Do, Connection.Enabled, SumMap, Register, Unregister, CoordinatorModel.Update, UpdateVerdict, TakeId, DoForward;
    match a
    case Request(d) => TakeIdKeepsGroup(s.conns[d]);
    case Forward(d) => TakeIdKeepsGroup(s.conns[d]);
    case _ =>
  }

  lemma TakeIdKeepsGroup(k: Conn)
    requires k.upRead < |k.up|
    ensures TakeId(k).group == k.group && TakeId(k).w == k.w && DoForward(k).group == k.group && DoForward(k).w == k.w
  {
  }

  lemma {:induction false} RunStaysDoomed(expected: nat, cfg: Config, run: seq<State>, j: nat, k: nat, c: ConnId, i: nat)
    requires IsRun(expected, cfg, run) && j <= k < |run| && c in run[j].conns && ConnDoomed(run[j].conns[c], i)
    ensures c in run[k].conns && ConnDoomed(run[k].conns[c], i)
    decreases k
  {
    hide Next, Possible, ConnDoomed;
    if j < k {
      RunStaysDoomed(expected, cfg, run, j, k - 1, c, i);
      assert Follows(run[k - 1], run[k - 1 + 1]);
      var a :| Possible(run[k - 1], a) && run[k] == Next(run[k - 1], a);
      NextStaysDoomed(run[k - 1], a, c, i);
    }
  }

  lemma DoomedNotCounted(s: State, c: ConnId, i: nat)
    requires Inv(s) && c in s.conns && Launched(s.conns[c]) && ConnDoomed(s.conns[c], i)
    ensures s.phase != Finished(true)
  {
    if s.phase == Finished(true) {
      LaunchedIsStarted(s, c);
      AllCounted(s);
      CountedConn(s, c);
      hide Inv;
      assert false;
    }
  }

  /**
   * A step of a worker in which a transactor ends with an error of its own, or in which the group is cancelled, by an
   * interrupt or by a progress report that cannot be written, before it has been collected completely.
   */
  ghost predicate ConnCulprit(k: Conn, a: Connection.Step) {
    || (a.GroupStep? && G.Culprit(k.group, a.g))
    || (a.ReportProgress? && a.o != Sent && G.Culprit(k.group, G.Cancel))
  }

  lemma ReportDooms(cfg: Config, k: Conn, o: Write)
    requires G.JoinedEnded(k.group) && Enabled(cfg, k, ReportProgress(o)) && ConnCulprit(k, ReportProgress(o))
    ensures exists i: nat :: ConnDoomed(Connection.Do(cfg, k, ReportProgress(o)), i)
  {
    var i: nat :| i < |k.group.joined| && !k.group.joined[i];
    G.CancelDooms(cfg, G.Do(cfg, k.group, G.MakeReport), i);
    hide G.Level, Put;
    assert ConnDoomed(Connection.Do(cfg, k, ReportProgress(o)), i);
  }

  lemma StepDooms(cfg: Config, k: Conn, g: G.Step)
    requires G.JoinedEnded(k.group) && Enabled(cfg, k, GroupStep(g)) && G.Culprit(k.group, g)
    ensures exists i: nat :: ConnDoomed(Connection.Do(cfg, k, GroupStep(g)), i)
  {
    hide G.Do, G.Doomed, G.Enabled, G.Culprit, G.JoinedEnded;
    G.CulpritDooms(cfg, k.group, g);
    var i: nat :| G.Doomed(G.Do(cfg, k.group, g), i);
    assert ConnDoomed(Connection.Do(cfg, k, GroupStep(g)), i);
  }

  lemma CulpritConn(s: State, c: ConnId, a: Connection.Step)
    requires Inv(s) && c in s.conns && Enabled(s.cfg, s.conns[c], a) && ConnCulprit(s.conns[c], a)
    ensures exists i: nat :: ConnDoomed(Connection.Do(s.cfg, s.conns[c], a), i)
  {
    hide Inv, G.JoinedEnded, G.Culprit, ConnDoomed, DoReport, UpOk, DownOk, RemoteOk, WorkerOk;
    ConnFacts(s, c);
    GroupInvJoins(s.cfg, s.conns[c]);
    if a.GroupStep? {
      assert a == GroupStep(a.g);
      StepDooms(s.cfg, s.conns[c], a.g);
    } else {
      assert a == ReportProgress(a.o);
      ReportDooms(s.cfg, s.conns[c], a.o);
    }
  }

  lemma GroupInvJoins(cfg: Config, k: Conn)
    requires WorkerOk(cfg, k) && k.w == WTesting
    ensures G.JoinedEnded(k.group)
  {
    hide Validate;
    assert G.Inv(cfg, k.group);
    forall i | 0 <= i < |k.group.stats| && k.group.joined[i] ensures k.group.stats[i].finished {
      assert G.SlotOk(cfg, k.group.stats[i], k.group.counts[i], k.group.bytes[i], k.group.joined[i]);
    }
  }

  lemma DoomedIsLaunched(k: Conn, i: nat)
    requires ConnDoomed(k, i)
    ensures Launched(k)
  {
  }

  /**
   * One transactor of one started worker that ends with an error, or one cancellation of a group that has not been
   * collected, rules success out for good.
   */
  lemma SendFailureRulesOutSuccess(expected: nat, cfg: Config, run: seq<State>, j: nat, k: nat, c: ConnId, a: Connection.Step)
    requires expected >= 1 && IsRun(expected, cfg, run) && j < k < |run|
    requires c in run[j].conns && Enabled(run[j].cfg, run[j].conns[c], a) && ConnCulprit(run[j].conns[c], a)
    requires run[j + 1] == SetConn(run[j], c, Connection.Do(run[j].cfg, run[j].conns[c], a))
    ensures run[k].phase != Finished(true)
  {
    hide Inv, ConnDoomed, Launched, Enabled, Connection.Do, ConnCulprit, IsRun;
    RunInv(expected, cfg, run, j);
    RunInv(expected, cfg, run, k);
    CulpritConn(run[j], c, a);
    var i: nat :| ConnDoomed(run[j + 1].conns[c], i);
    RunStaysDoomed(expected, cfg, run, j + 1, k, c, i);
    DoomedIsLaunched(run[k].conns[c], i);
    DoomedNotCounted(run[k], c, i);
  }

  /** `c` is sent the control message Failed between `run[j]` and `run[j + 1]`. */
  ghost predicate ToldFailed(run: seq<State>, j: int, c: ConnId) {
    && 0 <= j < |run| - 1 && c in run[j].conns && c in run[j + 1].conns
    && run[j + 1].conns[c].ctrl == run[j].conns[c].ctrl + [Failed]
  }

  ghost predicate Telling(s: State) {
    s.phase.Failing? || s.phase == Finished(false)
  }

  ghost predicate Untold(s: State, c: ConnId) {
    s.phase.Failing? && c in s.phase.left
  }

  lemma TellingStep(s: State, a: Action, c: ConnId)
    requires Possible(s, a) && Telling(Next(s, a)) && c in Next(s, a).coord.workers.Values
    ensures Untold(Next(s, a), c)
            || (Telling(s) && c in s.coord.workers.Values && !Untold(s, c))
            || (Untold(s, c) && c in s.conns && c in Next(s, a).conns && Next(s, a).conns[c].ctrl == s.conns[c].ctrl + [Failed])
  {
    hide Connection.Do, Connection.Enabled, SumMap, CoordinatorModel.Update, UpdateVerdict, Register;
    match a
    case TakeRegister =>
    case TakeLeave =>
    case TakeUpdate =>
    case StartAnswered =>
    case FailOne(d) =>
    case _ =>
  }

  lemma {:induction false} ToldOrUntold(expected: nat, cfg: Config, run: seq<State>, k: nat, c: ConnId)
    requires IsRun(expected, cfg, run) && k < |run| && Telling(run[k]) && c in run[k].coord.workers.Values
    ensures Untold(run[k], c) || exists j :: 0 <= j < k && ToldFailed(run, j, c)
  {
    hide Next, Possible, Untold;
    assert k > 0;
    var p := run[k - 1];
    assert Follows(p, run[k - 1 + 1]);
    var a :| Possible(p, a) && run[k] == Next(p, a);
    TellingStep(p, a, c);
    if !Untold(run[k], c) {
      if Telling(p) && c in p.coord.workers.Values && !Untold(p, c) {
        ToldOrUntold(expected, cfg, run, k - 1, c);
      } else {
        assert ToldFailed(run, k - 1, c);
      }
    }
  }

  /** When a run has failed, every worker that is still registered has been sent a Failed. */
  lemma AllToldFailed(expected: nat, cfg: Config, run: seq<State>, k: nat, c: ConnId)
    requires IsRun(expected, cfg, run) && k < |run|
    requires run[k].phase == Finished(false) && c in run[k].coord.workers.Values
    ensures exists j :: 0 <= j < k && ToldFailed(run, j, c)
  {
    hide IsRun;
    ToldOrUntold(expected, cfg, run, k, c);
  }

  /** A stop signal reaches an event loop that waits for the start or receives updates: it can then only end with an error. */
  lemma StopIsHeeded(s: State, c: ConnId)
    requires Possible(s, StopOne(c)) && (s.conns[c].r == RWaitStart || s.conns[c].r == RReceiving)
    requires s.conns[c].upRead <= |s.conns[c].up| && s.conns[c].downRead <= |s.conns[c].down|
    ensures var t := Next(s, StopOne(c));
      && Possible(t, Local(c, Connection.Stopped))
      && Next(t, Local(c, Connection.Stopped)).conns[c].r == RExiting(false)
  {
    hide SumMap;
  }

  // ------------------------------------------------------------ progress

  /** A progress tick publishes the sums over the recorded totals of all workers, and changes nothing else. */
  lemma ProgressPublishes(s: State)
    requires s.phase == Receiving
    ensures Possible(s, Progress)
    ensures var t := Next(s, Progress);
      && t.coord.totalTxs == SumMap(s.coord.txsPerWorker) && t.coord.totalBytes == SumMap(s.coord.bytesPerWorker)
      && t == s.(coord := s.coord.(totalTxs := t.coord.totalTxs, totalBytes := t.coord.totalBytes), deltas := t.deltas)
      && |t.deltas| == |s.deltas| + 1
  {
    hide SumMap;
  }

  /** Every increment behind a published rate is non-negative, and together they make up the published totals. */
  lemma ProgressTelescopes(expected: nat, cfg: Config, run: seq<State>, k: nat)
    requires expected >= 1 && IsRun(expected, cfg, run) && k < |run|
    ensures forall i :: 0 <= i < |run[k].deltas| ==> run[k].deltas[i].0 >= 0 && run[k].deltas[i].1 >= 0
    ensures SumTxs(run[k].deltas) == run[k].coord.totalTxs
    ensures SumBytes(run[k].deltas) == run[k].coord.totalBytes
  {
    RunInv(expected, cfg, run, k);
    InvTotals(run[k]);
  }
}
