/**
 * Runs of one connection as either end drives it. The objects `RemoteWorker` and `Worker` are shown to take exactly
 * the steps of `Connection`, while the other end and the coordinator do what they like.
 */
module ConnectionRuns {
  import opened Basics
  import opened LoadConfig
  import opened CoordinatorModel
  import opened Connection
  import opened Flow
  import opened Protocol

  // ------------------------------------------------------------ the coordinator's end

  /** A connection and the reports its remoteWorker has passed on. */
  datatype Side = Side(k: Conn, passed: seq<WorkerMsg>)

  predicate RemoteOwn(a: Step) {
    a.DropUp? || a.NoId? || a.Answered? || a.RegisterTimeout? || a.TakeCtrl? || a.Stopped? || a.ReadError? || a.ReadFailed?
  }

  ghost predicate RemoteMoves(cfg: Config, s: Side, s': Side) {
    || (exists a :: RemoteOwn(a) && Enabled(cfg, s.k, a) && s' == s.(k := Do(cfg, s.k, a)))
    || (CanTakeId(s.k) && s' == s.(k := TakeId(s.k)))
    || (CanForward(s.k) && s' == Side(DoForward(s.k), s.passed + [s.k.up[s.k.upRead]]))
  }

  /** The Worker writes, and the coordinator answers, sends control messages or stops the event loop. */
  ghost predicate CoordinatorActs(s: Side, s': Side) {
    && s' == s.(k := s.k.(up := s'.k.up, ctrl := s'.k.ctrl, registered := s'.k.registered, stopped := s'.k.stopped))
    && s.k.up <= s'.k.up && s.k.ctrl <= s'.k.ctrl
  }

  ghost predicate RemotePath(cfg: Config, path: seq<Side>) {
    forall i :: 0 <= i < |path| - 1 ==>
      RemoteMoves(cfg, path[i], path[i + 1]) || CoordinatorActs(path[i], path[i + 1])
  }

  ghost predicate RemoteLeads(cfg: Config, s: Side, s': Side) {
    exists path :: path != [] && RemotePath(cfg, path) && path[0] == s && path[|path| - 1] == s'
  }

  lemma RemoteStays(cfg: Config, s: Side)
    ensures RemoteLeads(cfg, s, s)
  {
    assert RemotePath(cfg, [s]);
  }

  lemma RemoteThen(cfg: Config, s: Side, t: Side, u: Side)
    requires RemoteLeads(cfg, s, t) && (RemoteMoves(cfg, t, u) || CoordinatorActs(t, u))
    ensures RemoteLeads(cfg, s, u)
  {
    hide RemoteMoves, CoordinatorActs;
    var path :| path != [] && RemotePath(cfg, path) && path[0] == s && path[|path| - 1] == t;
    var longer := path + [u];
    forall i | 0 <= i < |longer| - 1
      ensures RemoteMoves(cfg, longer[i], longer[i + 1]) || CoordinatorActs(longer[i], longer[i + 1])
    {
      assert longer[i] == path[i] && longer[i + 1] == if i + 1 < |path| then path[i + 1] else u;
    }
    assert RemotePath(cfg, longer);
  }

  lemma RemoteDoes(cfg: Config, s: Side, t: Side, a: Step)
    requires RemoteLeads(cfg, s, t) && RemoteOwn(a) && Enabled(cfg, t.k, a)
    ensures RemoteLeads(cfg, s, t.(k := Do(cfg, t.k, a)))
  {
    hide Enabled, Do, RemoteLeads;
    RemoteThen(cfg, s, t, t.(k := Do(cfg, t.k, a)));
  }

  /** The action changes connection `c` from `t` to `t'`, passing on the same reports, and no other connection. */
  ghost predicate Imitates(s: State, a: Action, c: ConnId, t: Side, t': Side) {
    && Possible(s, a)
    && Next(s, a).conns == s.conns[c := t'.k]
    && s.updates <= Next(s, a).updates
    && t'.passed == t.passed + Queued(Next(s, a).updates[|s.updates|..], c)
  }

  lemma LocalImitates(s: State, c: ConnId, t: Side, a: Step)
    requires c in s.conns && s.conns[c] == t.k && Enabled(s.cfg, t.k, a)
    ensures Imitates(s, Local(c, a), c, t, t.(k := Do(s.cfg, t.k, a)))
  {
    hide Do, Enabled;
    assert Next(s, Local(c, a)) == SetConn(s, c, Do(s.cfg, t.k, a));
    assert s.updates[|s.updates|..] == [];
  }

  lemma RequestImitates(s: State, c: ConnId, t: Side)
    requires c in s.conns && s.conns[c] == t.k && CanTakeId(t.k) && |s.registers| < s.expected
    ensures Imitates(s, Request(c), c, t, t.(k := TakeId(t.k)))
  {
    hide TakeId;
    assert Next(s, Request(c)) == DoRequest(s, c);
    assert s.updates[|s.updates|..] == [];
  }

  lemma ForwardImitates(s: State, c: ConnId, t: Side)
    requires c in s.conns && s.conns[c] == t.k && CanForward(t.k) && |s.updates| < s.expected
    ensures Imitates(s, Forward(c), c, t, Side(DoForward(t.k), t.passed + [t.k.up[t.k.upRead]]))
  {
    hide DoForward;
    var u := Update(c, t.k.up[t.k.upRead]);
    assert Next(s, Forward(c)) == DoForwardOne(s, c);
    assert (s.updates + [u])[|s.updates|..] == [u];
    assert [u][1..] == [] && Queued([u], c) == [u.msg];
  }

  /**
   * These runs are runs of the system: whatever a remoteWorker does is an action of the protocol that changes its
   * connection in the same way, and passes the same reports on. It may have to wait for room in a queue.
   */
  lemma RemoteMovesAreActions(s: State, c: ConnId, t: Side, t': Side)
    requires c in s.conns && s.conns[c] == t.k && RemoteMoves(s.cfg, t, t')
    requires |s.registers| < s.expected && |s.updates| < s.expected
    ensures exists a :: Imitates(s, a, c, t, t')
  {
    hide Do, Enabled, Imitates, TakeId, DoForward;
    if a :| RemoteOwn(a) && Enabled(s.cfg, t.k, a) && t' == t.(k := Do(s.cfg, t.k, a)) {
      LocalImitates(s, c, t, a);
    } else if CanTakeId(t.k) && t' == t.(k := TakeId(t.k)) {
      RequestImitates(s, c, t);
    } else {
      ForwardImitates(s, c, t);
    }
  }

  // ------------------------------------------------------------ the Worker's end

  predicate WorkerOwn(a: Step) {
    a.Hello? || a.ReadReply? || a.ReplyMissing? || a.ReadStart? || a.StartCancelled? || a.ConnectAll? || a.GroupStep?
    || a.ReportProgress? || a.Finish? || a.DropDown?
  }

  ghost predicate WorkerMoves(cfg: Config, k: Conn, k': Conn) {
    exists a :: WorkerOwn(a) && Enabled(cfg, k, a) && k' == Do(cfg, k, a)
  }

  /** The remoteWorker writes. */
  ghost predicate RemoteWrites(k: Conn, k': Conn) {
    k.down <= k'.down && k' == k.(down := k'.down)
  }

  ghost predicate WorkerPath(cfg: Config, path: seq<Conn>) {
    forall i :: 0 <= i < |path| - 1 ==> WorkerMoves(cfg, path[i], path[i + 1]) || RemoteWrites(path[i], path[i + 1])
  }

  ghost predicate WorkerLeads(cfg: Config, k: Conn, k': Conn) {
    exists path :: path != [] && WorkerPath(cfg, path) && path[0] == k && path[|path| - 1] == k'
  }

  lemma WorkerStays(cfg: Config, k: Conn)
    ensures WorkerLeads(cfg, k, k)
  {
    assert WorkerPath(cfg, [k]);
  }

  lemma WorkerThen(cfg: Config, k: Conn, l: Conn, m: Conn)
    requires WorkerLeads(cfg, k, l) && (WorkerMoves(cfg, l, m) || RemoteWrites(l, m))
    ensures WorkerLeads(cfg, k, m)
  {
    hide WorkerMoves, RemoteWrites;
    var path :| path != [] && WorkerPath(cfg, path) && path[0] == k && path[|path| - 1] == l;
    var longer := path + [m];
    forall i | 0 <= i < |longer| - 1
      ensures WorkerMoves(cfg, longer[i], longer[i + 1]) || RemoteWrites(longer[i], longer[i + 1])
    {
      assert longer[i] == path[i] && longer[i + 1] == if i + 1 < |path| then path[i + 1] else m;
    }
    assert WorkerPath(cfg, longer);
  }

  lemma WorkerDoes(cfg: Config, k: Conn, l: Conn, a: Step)
    requires WorkerLeads(cfg, k, l) && WorkerOwn(a) && Enabled(cfg, l, a)
    ensures WorkerLeads(cfg, k, Do(cfg, l, a))
  {
    hide Enabled, Do, WorkerLeads;
    WorkerThen(cfg, k, l, Do(cfg, l, a));
  }

  lemma WorkerMovesAreActions(s: State, c: ConnId, k': Conn)
    requires c in s.conns && WorkerMoves(s.cfg, s.conns[c], k')
    ensures exists a :: Possible(s, a) && Next(s, a) == SetConn(s, c, k')
  {
    hide Do, Enabled;
    var a :| WorkerOwn(a) && Enabled(s.cfg, s.conns[c], a) && k' == Do(s.cfg, s.conns[c], a);
    assert Possible(s, Local(c, a));
  }
}
