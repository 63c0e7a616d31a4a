/**
 * Runs that exist: for every number of workers and every valid configuration there is a run in which the coordinator
 * succeeds with a transaction from every transactor, and one in which a worker does everything right and yet the
 * coordinator can never succeed.
 */
module ProtocolWitness {
  import opened Basics
  import opened LoadConfig
  import opened ConfigCheck
  import opened CoordinatorModel
  import opened Connection
  import opened Flow
  import opened Protocol
  import opened ProtocolTheorems
  import CP = ConnectionProofs
  import T = TransactorModel
  import G = GroupModel

  ghost predicate Reachable(expected: nat, cfg: Config, s: State) {
    exists run :: IsRun(expected, cfg, run) && run[|run| - 1] == s
  }

  lemma ReachInit(expected: nat, cfg: Config)
    ensures Reachable(expected, cfg, Init(expected, cfg))
  {
    assert IsRun(expected, cfg, [Init(expected, cfg)]);
  }

  lemma ReachNext(expected: nat, cfg: Config, s: State, a: Action)
    requires Reachable(expected, cfg, s) && Possible(s, a)
    ensures Reachable(expected, cfg, Next(s, a))
  {
    hide Possible, Next;
    var run :| IsRun(expected, cfg, run) && run[|run| - 1] == s;
    var run' := run + [Next(s, a)];
    forall i | 0 <= i < |run'| - 1 ensures Follows(run'[i], run'[i + 1]) {
      if i < |run| - 1 {
        assert Follows(run[i], run[i + 1]);
      } else {
        assert run'[i] == s && run'[i + 1] == Next(s, a);
      }
    }
    assert IsRun(expected, cfg, run');
  }

  ghost predicate Leads(s: State, a: Action, s': State) {
    Possible(s, a) && Next(s, a) == s'
  }

  lemma Go(expected: nat, cfg: Config, s: State, a: Action, s': State)
    requires Reachable(expected, cfg, s) && Leads(s, a, s')
    ensures Reachable(expected, cfg, s')
  {
    hide Possible, Next, Reachable;
    ReachNext(expected, cfg, s, a);
  }

  /** A step of one connection alone. */
  lemma GoLocal(expected: nat, cfg: Config, s: State, c: ConnId, k: Conn, step: Connection.Step, k': Conn)
    requires Reachable(expected, cfg, SetConn(s, c, k)) && s.cfg == cfg
    requires Enabled(cfg, k, step) && Do(cfg, k, step) == k'
    ensures Reachable(expected, cfg, SetConn(s, c, k'))
  {
    hide Reachable, Enabled, Do;
    var s1, s2 := SetConn(s, c, k), SetConn(s, c, k');
    assert s1.conns[c := k'] == s2.conns;
    assert Leads(s1, Local(c, step), s2);
    Go(expected, cfg, s1, Local(c, step), s2);
  }

  // ------------------------------------------------------------ one group: every transactor sends once

  function Half(cfg: Config, n: nat, j: nat): G.Group
    requires cfg.size >= 0
  {
    G.Group(seq(n, i => if i < j then G.Stat(1, cfg.size, 0, true, false) else G.Stat(0, 0, 0, false, false)),
            seq(n, i => if i < j then 1 else 0), seq(n, i => if i < j then cfg.size else 0), seq(n, i => i < j),
            false, None, [])
  }

  lemma HalfStart(cfg: Config, n: nat)
    requires cfg.size >= 0
    ensures Half(cfg, n, 0) == G.Start(n)
  {
    var h, g := Half(cfg, n, 0), G.Start(n);
    assert h.stats == g.stats && h.counts == g.counts && h.bytes == g.bytes && h.joined == g.joined;
  }

  /** After its batch, and after its end. */
  function Sent1(cfg: Config, n: nat, j: nat, finished: bool): G.Group
    requires cfg.size >= 0 && j < n
  {
    var h := Half(cfg, n, j);
    h.(stats := h.stats[j := G.Stat(1, cfg.size, 0, finished, false)])
  }

  lemma BatchStep(cfg: Config, n: nat, j: nat)
    requires Usable(cfg) && j < n
    ensures G.Shape(Half(cfg, n, j)) && G.Enabled(cfg, Half(cfg, n, j), G.Batch(j, 1, false))
    ensures G.Do(cfg, Half(cfg, n, j), G.Batch(j, 1, false)) == Sent1(cfg, n, j, false)
  {
    assert T.ToSend(cfg, 0) >= 1;
  }

  lemma FinishStep(cfg: Config, n: nat, j: nat)
    requires Usable(cfg) && j < n
    ensures var g := Sent1(cfg, n, j, false);
      && G.Shape(g) && G.Enabled(cfg, g, G.Finish(j, false))
      && G.Do(cfg, g, G.Finish(j, false)) == Sent1(cfg, n, j, true)
  {
    var g := Sent1(cfg, n, j, false);
    assert G.Do(cfg, g, G.Finish(j, false)).stats == Sent1(cfg, n, j, true).stats;
  }

  lemma JoinStep(cfg: Config, n: nat, j: nat)
    requires Usable(cfg) && j < n
    ensures var g := Sent1(cfg, n, j, true);
      G.Shape(g) && G.Enabled(cfg, g, G.Join(j)) && G.Do(cfg, g, G.Join(j)) == Half(cfg, n, j + 1)
  {
    var g, h := Sent1(cfg, n, j, true), Half(cfg, n, j + 1);
    var r := G.Do(cfg, g, G.Join(j));
    assert r.stats == h.stats && r.counts == h.counts && r.bytes == h.bytes && r.joined == h.joined;
  }

  lemma {:induction false} SumSame(s: seq<nat>, x: nat)
    requires forall i :: 0 <= i < |s| ==> s[i] == x
    ensures Sum(s) == |s| * x
  {
    if s != [] {
      var n := |s| - 1;
      SumSame(s[..n], x);
      assert s == s[..n] + [x];
      SumAppend(s[..n], x);
      assert (n + 1) * x == n * x + x;
    }
  }

  lemma HalfDone(cfg: Config, n: nat)
    requires cfg.size >= 0
    ensures G.Waited(Half(cfg, n, n)) && !Half(cfg, n, n).waitErr
    ensures G.Level(Half(cfg, n, n)) == G.Report(n, n * cfg.size)
  {
    SumSame(Half(cfg, n, n).counts, 1);
    SumSame(Half(cfg, n, n).bytes, cfg.size);
  }

  lemma {:induction false} GroupRuns(expected: nat, cfg: Config, s: State, c: ConnId, k: Conn, n: nat, j: nat)
    requires Usable(cfg) && s.cfg == cfg && j <= n && k.w == WTesting && k.upRead <= |k.up| && k.downRead <= |k.down|
    requires Reachable(expected, cfg, SetConn(s, c, k.(group := Half(cfg, n, j))))
    ensures Reachable(expected, cfg, SetConn(s, c, k.(group := Half(cfg, n, n))))
    decreases n - j
  {
    hide Reachable, SetConn, G.Enabled, G.Do, G.Shape, Half, Sent1;
    if j < n {
      BatchStep(cfg, n, j);
      FinishStep(cfg, n, j);
      JoinStep(cfg, n, j);
      var k0, k1, k2, k3 := k.(group := Half(cfg, n, j)), k.(group := Sent1(cfg, n, j, false)),
          k.(group := Sent1(cfg, n, j, true)), k.(group := Half(cfg, n, j + 1));
      GoLocal(expected, cfg, s, c, k0, GroupStep(G.Batch(j, 1, false)), k1);
      GoLocal(expected, cfg, s, c, k1, GroupStep(G.Finish(j, false)), k2);
      GoLocal(expected, cfg, s, c, k2, GroupStep(G.Join(j)), k3);
      GroupRuns(expected, cfg, s, c, k, n, j + 1);
    }
  }

  // ------------------------------------------------------------ one connection, stage by stage

  function Name(c: ConnId): string {
    seq(c + 1, i => 'w')
  }

  lemma NameInjective(c: ConnId, d: ConnId)
    ensures Name(c) == Name(d) <==> c == d
  {
    assert |Name(c)| == c + 1 && |Name(d)| == d + 1;
  }

  function Greeted(c: ConnId): Conn {
    Open(Name(c)).(w := WAwaitAccept, up := [Plain(Name(c), Unset)])
  }

  function Asking(c: ConnId): Conn {
    Greeted(c).(upRead := 1, r := RRegistering, rid := Name(c))
  }

  function Registered_(c: ConnId): Conn {
    Asking(c).(registered := Some(true))
  }

  function Accepted_(cfg: Config, c: ConnId): Conn {
    Registered_(c).(r := RWaitStart, down := [WorkerMsg(Name(c), Accepted, 0, 0, Some(cfg))])
  }

  function Ready(cfg: Config, c: ConnId): Conn {
    Accepted_(cfg, c).(w := WAwaitStart, cfg := Some(cfg), downRead := 1)
  }

  function Started(cfg: Config, c: ConnId): Conn {
    Ready(cfg, c).(r := RReceiving, started := Some(true),
                   down := [WorkerMsg(Name(c), Accepted, 0, 0, Some(cfg)), Plain(Name(c), Testing)])
  }

  function Running(cfg: Config, c: ConnId, j: nat): Conn
    requires Usable(cfg)
  {
    Started(cfg, c).(w := WTesting, downRead := 2, group := Half(cfg, Transactors(cfg), j))
  }

  function LastWord(cfg: Config, c: ConnId): WorkerMsg
    requires Usable(cfg)
  {
    WorkerMsg(Name(c), Completed, Transactors(cfg), Transactors(cfg) * cfg.size, None)
  }

  function Done(cfg: Config, c: ConnId): Conn
    requires Usable(cfg)
  {
    Running(cfg, c, Transactors(cfg)).(w := WEnded, reported := true, up := [Plain(Name(c), Unset), LastWord(cfg, c)])
  }

  function Passed(cfg: Config, c: ConnId): Conn
    requires Usable(cfg)
  {
    Done(cfg, c).(upRead := 2, r := RExiting(true))
  }

  lemma HelloStep(cfg: Config, c: ConnId)
    ensures Enabled(cfg, Open(Name(c)), Hello(Sent)) && Do(cfg, Open(Name(c)), Hello(Sent)) == Greeted(c)
  {
    hide Name;
  }

  lemma AnsweredStep(cfg: Config, c: ConnId)
    ensures Enabled(cfg, Registered_(c), Answered(Sent, Sent)) && Do(cfg, Registered_(c), Answered(Sent, Sent)) == Accepted_(cfg, c)
  {
    hide Name;
  }

  lemma ReplyStep(cfg: Config, c: ConnId)
    requires Validate(cfg).Ok?
    ensures Enabled(cfg, Accepted_(cfg, c), ReadReply(Sent, false))
            && Do(cfg, Accepted_(cfg, c), ReadReply(Sent, false)) == Ready(cfg, c)
  {
    hide Validate, Name;
  }

  lemma SignalStep(cfg: Config, c: ConnId)
    ensures var k := Ready(cfg, c).(ctrl := [Testing]);
      Enabled(cfg, k, TakeCtrl(Sent)) && Do(cfg, k, TakeCtrl(Sent)) == Started(cfg, c)
  {
    hide Name;
  }

  lemma LaunchSteps(cfg: Config, c: ConnId)
    requires Usable(cfg)
    ensures var k := Started(cfg, c).(w := WConnect, downRead := 2);
      && Enabled(cfg, Started(cfg, c), ReadStart(Sent)) && Do(cfg, Started(cfg, c), ReadStart(Sent)) == k
      && Enabled(cfg, k, ConnectAll(true, Sent)) && Do(cfg, k, ConnectAll(true, Sent)) == Running(cfg, c, 0)
  {
    hide Name, Half, G.Start;
    HalfStart(cfg, Transactors(cfg));
  }

  lemma FinishSteps(cfg: Config, c: ConnId)
    requires Usable(cfg)
    ensures var k, a := Running(cfg, c, Transactors(cfg)), Connection.Finish(Sent, Sent);
      Enabled(cfg, k, a) && Do(cfg, k, a) == Done(cfg, c)
  {
    hide Name, Half, G.Level, G.Waited;
    HalfDone(cfg, Transactors(cfg));
  }

  // ------------------------------------------------------------ all connections and the coordinator's maps

  datatype Stage = IsReady | IsStarted | HasPassed

  function At(cfg: Config, stage: Stage, c: ConnId): Conn
    requires Usable(cfg)
  {
    match stage
    case IsReady => Ready(cfg, c)
    case IsStarted => Started(cfg, c)
    case HasPassed => Passed(cfg, c)
  }

  /** Connections 0 to `n - 1`, of which the first `i` have reached a later stage. */
  function Line(cfg: Config, n: nat, i: nat, early: Stage, late: Stage): map<ConnId, Conn>
    requires Usable(cfg)
  {
    map c | c in Upto(0, n) :: At(cfg, if c < i then early else late, c)
  }

  lemma LineNext(cfg: Config, n: nat, i: nat, early: Stage, late: Stage)
    requires Usable(cfg) && i < n
    ensures i in Line(cfg, n, i, early, late) && Line(cfg, n, i, early, late)[i] == At(cfg, late, i)
    ensures Line(cfg, n, i, early, late)[i := At(cfg, early, i)] == Line(cfg, n, i + 1, early, late)
  {
    hide At;
  }

  lemma LineGrows(cfg: Config, i: nat)
    requires Usable(cfg)
    ensures i !in Line(cfg, i, i, IsReady, IsReady)
    ensures Line(cfg, i, i, IsReady, IsReady)[i := Ready(cfg, i)] == Line(cfg, i + 1, i + 1, IsReady, IsReady)
  {
    assert At(cfg, IsReady, i) == Ready(cfg, i);
    hide At, Ready;
  }

  lemma LineTurns(cfg: Config, n: nat, a: Stage, b: Stage, c: Stage)
    requires Usable(cfg)
    ensures Line(cfg, n, n, a, c) == Line(cfg, n, 0, b, a)
  {
    hide At;
  }

  function Names(n: nat): map<string, ConnId> {
    if n == 0 then map[] else Names(n - 1)[Name(n - 1) := n - 1]
  }

  function Upto(i: nat, n: nat): (s: set<ConnId>)
    ensures forall c: ConnId :: c in s <==> i <= c < n
  {
    if n <= i then {} else Upto(i, n - 1) + {n - 1}
  }

  lemma {:induction false} NamesKeys(n: nat)
    ensures forall c: ConnId :: Name(c) in Names(n) <==> c < n
    ensures forall c: ConnId :: c < n ==> Names(n)[Name(c)] == c
  {
    if n > 0 {
      NamesKeys(n - 1);
      forall c: ConnId
        ensures Name(c) in Names(n) <==> c < n
        ensures c < n ==> Names(n)[Name(c)] == c
      {
        NameInjective(c, n - 1);
      }
    }
  }

  lemma {:induction false} NamesBack(n: nat)
    ensures forall id :: id in Names(n) ==> Names(n)[id] < n && id == Name(Names(n)[id])
    ensures |Names(n)| == n
  {
    if n > 0 {
      NamesBack(n - 1);
      NamesKeys(n - 1);
      hide Name;
      var m := Names(n - 1);
      assert Names(n) == m[Name(n - 1) := n - 1] && Name(n - 1) !in m;
      assert Names(n).Keys == m.Keys + {Name(n - 1)};
      assert |Names(n)| == |Names(n).Keys|;
    }
  }

  lemma NamesValues(n: nat)
    ensures Names(n).Values == Upto(0, n)
  {
    NamesKeys(n);
    NamesBack(n);
    hide Name;
    forall c | c in Upto(0, n) ensures c in Names(n).Values {
      assert Names(n)[Name(c)] == c;
    }
  }

  /** Totals per worker when the first `i` of `n` workers have reported `x`. */
  function Tally(n: nat, i: nat, x: nat): map<string, nat> {
    if n == 0 then map[] else Tally(n - 1, i, x)[Name(n - 1) := if n - 1 < i then x else 0]
  }

  lemma {:induction false} TallyFacts(n: nat, i: nat, x: nat)
    ensures forall c: ConnId :: Name(c) in Tally(n, i, x) <==> c < n
    ensures i < n ==> Tally(n, i, x)[Name(i) := x] == Tally(n, i + 1, x)
    ensures i >= n ==> Tally(n, i, x) == Tally(n, i + 1, x)
  {
    if n > 0 {
      TallyFacts(n - 1, i, x);
      forall c: ConnId ensures Name(c) in Tally(n, i, x) <==> c < n {
        NameInjective(c, n - 1);
      }
      if i < n - 1 {
        NameInjective(i, n - 1);
        assert Tally(n, i, x)[Name(i) := x] == Tally(n - 1, i, x)[Name(i) := x][Name(n - 1) := 0];
      }
    }
  }

  lemma {:induction false} TallySum(n: nat, i: nat, x: nat)
    requires n <= i
    ensures SumMap(Tally(n, i, x)) == n * x
  {
    if n > 0 {
      TallySum(n - 1, i, x);
      TallyFacts(n - 1, i, x);
      SumMapInsert(Tally(n - 1, i, x), Name(n - 1), x);
      assert (n - 1) * x + x == n * x;
    }
  }

  lemma {:induction false} TallyZero(n: nat, x: nat)
    ensures Tally(n, 0, x) == Tally(n, 0, 0)
  {
    if n > 0 {
      TallyZero(n - 1, x);
    }
  }

  // ------------------------------------------------------------ the workers register, one after the other

  function Idle_(n: nat): Coord {
    Coord(Names(n), Tally(n, 0, 0), Tally(n, 0, 0), 0, 0, 0)
  }

  function Gathering(expected: nat, cfg: Config, i: nat): State
    requires Usable(cfg)
  {
    State(expected, cfg, Waiting, Idle_(i), Line(cfg, i, i, IsReady, IsReady), [], [], [], map[], {}, {}, [])
  }

  /** After registering, the state but for connection `i`. */
  function Admitting(expected: nat, cfg: Config, i: nat): State
    requires Usable(cfg)
  {
    var s := Gathering(expected, cfg, i).(coord := Idle_(i + 1));
    if i + 1 >= expected then s.(roster := Names(i + 1), phase := Starting(Upto(0, i + 1), None)) else s
  }

  lemma ConnectLeads(expected: nat, cfg: Config, i: nat)
    requires Usable(cfg)
    ensures var s := Gathering(expected, cfg, i); Leads(s, Connect(i, Name(i)), SetConn(s, i, Open(Name(i))))
  {
    LineGrows(cfg, i);
    hide Line, Name, Names, Tally;
  }

  lemma RequestLeads(expected: nat, cfg: Config, i: nat)
    requires Usable(cfg) && i < expected
    ensures var s := Gathering(expected, cfg, i);
      Leads(SetConn(s, i, Greeted(i)), Request(i), SetConn(s, i, Asking(i)).(registers := [i]))
  {
    hide Leads, Line, Names, Tally, Idle_, Greeted, Asking, Name, Usable, TakeId;
    GreetedFacts(i);
    var s := Gathering(expected, cfg, i);
    RequestOf(SetConn(s, i, Greeted(i)), i);
    assert s.conns[i := Greeted(i)][i := Asking(i)] == s.conns[i := Asking(i)];
    assert [] + [i] == [i];
  }

  lemma GreetedFacts(c: ConnId)
    ensures CanTakeId(Greeted(c)) && TakeId(Greeted(c)) == Asking(c)
  {
    assert Name(c) != "";
    hide Name;
  }

  lemma RequestOf(s: State, c: ConnId)
    requires c in s.conns && CanTakeId(s.conns[c]) && |s.registers| < s.expected
    ensures Leads(s, Request(c), DoRequest(s, c))
  {
  }

  lemma Registers(i: nat, expected: nat)
    requires i < expected
    ensures RegisterAnswer(Idle_(i), expected, Name(i)) == RegisterResult.Registered
    ensures Register(Idle_(i), expected, Name(i), i) == Idle_(i + 1)
    ensures |Idle_(i + 1).workers| == i + 1
  {
    NamesKeys(i);
    NamesBack(i);
    NamesBack(i + 1);
    hide Name;
  }

  lemma RegisterLeads(expected: nat, cfg: Config, i: nat)
    requires Usable(cfg) && i < expected
    ensures Leads(SetConn(Gathering(expected, cfg, i), i, Asking(i)).(registers := [i]), TakeRegister,
                  SetConn(Admitting(expected, cfg, i), i, Registered_(i)))
  {
    hide Leads, Line, Name, Names, Tally, Register, RegisterAnswer, Upto, Asking, Registered_;
    Registers(i, expected);
    NamesValues(i + 1);
    StagesOfAsking(i);
    var s := Gathering(expected, cfg, i);
    var t := SetConn(s, i, Asking(i)).(registers := [i]);
    RegisterOf(t, i);
    assert s.conns[i := Asking(i)][i := Registered_(i)] == s.conns[i := Registered_(i)];
    assert [i][1..] == [];
  }

  lemma StagesOfAsking(c: ConnId)
    ensures Asking(c).rid == Name(c) && Asking(c).(registered := Some(true)) == Registered_(c)
  {
    hide Name;
  }

  lemma RegisterOf(s: State, c: ConnId)
    requires s.phase == Waiting && s.registers == [c] && c in s.conns
    ensures Leads(s, TakeRegister, DoTakeRegister(s))
  {
  }

  lemma Admit(expected: nat, cfg: Config, i: nat)
    requires Validate(cfg).Ok? && Usable(cfg) && i < expected && Reachable(expected, cfg, Gathering(expected, cfg, i))
    ensures Reachable(expected, cfg, SetConn(Admitting(expected, cfg, i), i, Ready(cfg, i)))
  {
    hide Validate, Reachable, Leads, Enabled, Do, Open, Greeted, Asking, Registered_, Accepted_, Ready, SetConn, Line, Names,
         Tally, Idle_;
    var s, t := Gathering(expected, cfg, i), Admitting(expected, cfg, i);
    HelloStep(cfg, i);
    AnsweredStep(cfg, i);
    ReplyStep(cfg, i);
    ConnectLeads(expected, cfg, i);
    Go(expected, cfg, s, Connect(i, Name(i)), SetConn(s, i, Open(Name(i))));
    GoLocal(expected, cfg, s, i, Open(Name(i)), Hello(Sent), Greeted(i));
    RequestLeads(expected, cfg, i);
    Go(expected, cfg, SetConn(s, i, Greeted(i)), Request(i), SetConn(s, i, Asking(i)).(registers := [i]));
    RegisterLeads(expected, cfg, i);
    Go(expected, cfg, SetConn(s, i, Asking(i)).(registers := [i]), TakeRegister, SetConn(t, i, Registered_(i)));
    GoLocal(expected, cfg, t, i, Registered_(i), Answered(Sent, Sent), Accepted_(cfg, i));
    GoLocal(expected, cfg, t, i, Accepted_(cfg, i), ReadReply(Sent, false), Ready(cfg, i));
  }

  lemma {:induction false} Gather(expected: nat, cfg: Config, i: nat)
    requires Validate(cfg).Ok? && Usable(cfg) && i < expected
    ensures Reachable(expected, cfg, Gathering(expected, cfg, i))
  {
    hide Validate, Reachable, Gathering, Admitting, Init, SetConn, Ready, Usable;
    if i == 0 {
      ReachInit(expected, cfg);
      GatherNone(expected, cfg);
    } else {
      Gather(expected, cfg, i - 1);
      Admit(expected, cfg, i - 1);
      GatherNext(expected, cfg, i - 1);
    }
  }

  lemma GatherNone(expected: nat, cfg: Config)
    requires Usable(cfg)
    ensures Gathering(expected, cfg, 0) == Init(expected, cfg)
  {
    assert Line(cfg, 0, 0, IsReady, IsReady) == map[];
  }

  lemma GatherNext(expected: nat, cfg: Config, i: nat)
    requires Usable(cfg) && i + 1 < expected
    ensures SetConn(Admitting(expected, cfg, i), i, Ready(cfg, i)) == Gathering(expected, cfg, i + 1)
  {
    LineGrows(cfg, i);
    hide Line, Ready, Idle_, Usable;
  }

  // ------------------------------------------------------------ they are started, one after the other

  function StartingPhase(expected: nat, i: nat): Phase {
    if i >= expected then Receiving else Starting(Upto(i, expected), None)
  }

  function Launching(expected: nat, cfg: Config, i: nat): State
    requires Usable(cfg)
  {
    State(expected, cfg, StartingPhase(expected, i), Idle_(expected), Line(cfg, expected, i, IsStarted, IsReady),
          [], [], [], Names(expected), {}, {}, [])
  }

  lemma FirstLaunch(expected: nat, cfg: Config)
    requires Validate(cfg).Ok? && Usable(cfg) && expected >= 1
    ensures Reachable(expected, cfg, Launching(expected, cfg, 0))
  {
    hide Validate, Reachable, Gathering, Admitting, SetConn, Ready, Usable, Launching;
    Gather(expected, cfg, expected - 1);
    Admit(expected, cfg, expected - 1);
    GatherLast(expected, cfg);
  }

  lemma GatherLast(expected: nat, cfg: Config)
    requires Usable(cfg) && expected >= 1
    ensures SetConn(Admitting(expected, cfg, expected - 1), expected - 1, Ready(cfg, expected - 1)) == Launching(expected, cfg, 0)
  {
    hide Line, Ready, Idle_, Names, Usable;
    LineGrows(cfg, expected - 1);
    LineTurns(cfg, expected, IsReady, IsStarted, IsReady);
    hide Upto;
    var s := SetConn(Admitting(expected, cfg, expected - 1), expected - 1, Ready(cfg, expected - 1));
    assert s.conns == Line(cfg, expected, 0, IsStarted, IsReady);
    assert s.phase == StartingPhase(expected, 0);
  }

  lemma StageFacts(cfg: Config, c: ConnId)
    ensures Ready(cfg, c).ctrl == [] && Started(cfg, c).started == Some(true)
  {
    hide Name;
  }

  lemma LaunchLine(expected: nat, cfg: Config, i: nat)
    requires Usable(cfg) && i < expected
    ensures var conns := Launching(expected, cfg, i).conns;
      i in conns && conns[i] == Ready(cfg, i) && conns[i := Started(cfg, i)] == Launching(expected, cfg, i + 1).conns
  {
    LineNext(cfg, expected, i, IsStarted, IsReady);
    hide Line, Idle_, Names, Ready, Started, Usable;
  }

  lemma StartOneOf(s: State, c: ConnId)
    requires s.phase.Starting? && s.phase.current.None? && c in s.phase.todo && c in s.conns && s.conns[c].ctrl == []
    ensures Leads(s, StartOne(c), Send(s, c, Testing).(phase := Starting(s.phase.todo, Some(c))))
  {
  }

  lemma AnswerOf(s: State, c: ConnId)
    requires s.phase.Starting? && s.phase.current == Some(c) && c in s.conns && s.conns[c].started == Some(true)
    ensures Leads(s, StartAnswered,
                  s.(phase := if s.phase.todo - {c} == {} then Receiving else Starting(s.phase.todo - {c}, None)))
  {
  }

  lemma StartOneLeads(expected: nat, cfg: Config, i: nat)
    requires Usable(cfg) && i < expected
    ensures var s := Launching(expected, cfg, i);
      Leads(s, StartOne(i), SetConn(s.(phase := Starting(Upto(i, expected), Some(i))), i, Ready(cfg, i).(ctrl := [Testing])))
  {
    hide Line, Ready, Started, Idle_, Names, Usable, Leads, Upto;
    LaunchLine(expected, cfg, i);
    StageFacts(cfg, i);
    var s := Launching(expected, cfg, i);
    StartOneOf(s, i);
    assert s.conns[i].(ctrl := s.conns[i].ctrl + [Testing]) == Ready(cfg, i).(ctrl := [Testing]);
  }

  lemma UptoNext(i: nat, n: nat)
    requires i < n
    ensures Upto(i, n) - {i} == Upto(i + 1, n) && (Upto(i + 1, n) == {} <==> i + 1 >= n)
  {
    assert i + 1 < n ==> i + 1 in Upto(i + 1, n);
  }

  lemma StartAnsweredLeads(expected: nat, cfg: Config, i: nat)
    requires Usable(cfg) && i < expected
    ensures var s := Launching(expected, cfg, i).(phase := Starting(Upto(i, expected), Some(i)));
      Leads(SetConn(s, i, Started(cfg, i)), StartAnswered, Launching(expected, cfg, i + 1))
  {
    hide Line, Ready, Started, Idle_, Names, Usable, Leads, Upto;
    LaunchLine(expected, cfg, i);
    StageFacts(cfg, i);
    var s := Launching(expected, cfg, i).(phase := Starting(Upto(i, expected), Some(i)));
    var t := SetConn(s, i, Started(cfg, i));
    assert t.conns == Launching(expected, cfg, i + 1).conns && t.conns[i] == Started(cfg, i);
    AnswerOf(t, i);
    UptoNext(i, expected);
  }

  lemma {:induction false} Launch(expected: nat, cfg: Config, i: nat)
    requires Validate(cfg).Ok? && Usable(cfg) && expected >= 1 && i <= expected
    ensures Reachable(expected, cfg, Launching(expected, cfg, i))
  {
    hide Validate, Reachable, Usable, Launching;
    if i == 0 {
      FirstLaunch(expected, cfg);
    } else {
      Launch(expected, cfg, i - 1);
      LaunchOne(expected, cfg, i - 1);
    }
  }

  lemma LaunchOne(expected: nat, cfg: Config, c: ConnId)
    requires Usable(cfg) && c < expected && Reachable(expected, cfg, Launching(expected, cfg, c))
    ensures Reachable(expected, cfg, Launching(expected, cfg, c + 1))
  {
    hide Reachable, Usable, Leads, Enabled, Do, SetConn, Line, Ready, Started, Idle_, Names, StartingPhase, Upto;
    var s := Launching(expected, cfg, c);
    var t := s.(phase := Starting(Upto(c, expected), Some(c)));
    StartOneLeads(expected, cfg, c);
    Go(expected, cfg, s, StartOne(c), SetConn(t, c, Ready(cfg, c).(ctrl := [Testing])));
    SignalStep(cfg, c);
    GoLocal(expected, cfg, t, c, Ready(cfg, c).(ctrl := [Testing]), TakeCtrl(Sent), Started(cfg, c));
    StartAnsweredLeads(expected, cfg, c);
    Go(expected, cfg, SetConn(t, c, Started(cfg, c)), StartAnswered, Launching(expected, cfg, c + 1));
  }

  // ------------------------------------------------------------ they finish, one after the other

  function Collected(expected: nat, cfg: Config, i: nat): Coord
    requires Usable(cfg)
  {
    var n := Transactors(cfg);
    Coord(Names(expected), Tally(expected, i, n), Tally(expected, i, n * cfg.size), 0, 0, i)
  }

  function Collecting(expected: nat, cfg: Config, i: nat): State
    requires Usable(cfg)
  {
    State(expected, cfg, Receiving, Collected(expected, cfg, i), Line(cfg, expected, i, HasPassed, IsStarted),
          [], [], [], Names(expected), Upto(0, i), {}, [])
  }

  lemma FirstCollect(expected: nat, cfg: Config)
    requires Usable(cfg)
    ensures Launching(expected, cfg, expected) == Collecting(expected, cfg, 0)
  {
    LineTurns(cfg, expected, IsStarted, HasPassed, IsReady);
    TallyZero(expected, Transactors(cfg));
    TallyZero(expected, Transactors(cfg) * cfg.size);
    hide Line, Names, Tally, Transactors;
  }

  /** From the start signal to the Completed on the wire. */
  lemma Work(expected: nat, cfg: Config, s: State, c: ConnId)
    requires Usable(cfg) && s.cfg == cfg && Reachable(expected, cfg, SetConn(s, c, Started(cfg, c)))
    ensures Reachable(expected, cfg, SetConn(s, c, Done(cfg, c)))
  {
    hide Reachable, SetConn, Enabled, Do, Started, Done, Half;
    var n := Transactors(cfg);
    var k1 := Started(cfg, c).(w := WConnect, downRead := 2);
    LaunchSteps(cfg, c);
    GoLocal(expected, cfg, s, c, Started(cfg, c), ReadStart(Sent), k1);
    GoLocal(expected, cfg, s, c, k1, ConnectAll(true, Sent), Running(cfg, c, 0));
    RunningFacts(cfg, c);
    GroupRuns(expected, cfg, s, c, Running(cfg, c, 0), n, 0);
    FinishSteps(cfg, c);
    GoLocal(expected, cfg, s, c, Running(cfg, c, n), Connection.Finish(Sent, Sent), Done(cfg, c));
  }

  lemma RunningFacts(cfg: Config, c: ConnId)
    requires Usable(cfg)
    ensures var k, n := Running(cfg, c, 0), Transactors(cfg);
      && k.w == WTesting && k.upRead <= |k.up| && k.downRead <= |k.down|
      && k == k.(group := Half(cfg, n, 0)) && Running(cfg, c, n) == k.(group := Half(cfg, n, n))
  {
    hide Half, Name;
  }

  lemma ForwardOf(s: State, c: ConnId)
    requires c in s.conns && CanForward(s.conns[c]) && |s.updates| < s.expected
    ensures Leads(s, Forward(c), DoForwardOne(s, c))
  {
  }

  lemma DoneFacts(cfg: Config, c: ConnId)
    requires Usable(cfg)
    ensures var k := Done(cfg, c);
      CanForward(k) && k.up[k.upRead] == LastWord(cfg, c) && DoForward(k) == Passed(cfg, c)
  {
    hide Name, Half, Transactors;
  }

  /** The first `i` have been counted, and the Completed of the next one is queued. */
  function Queueing(expected: nat, cfg: Config, i: nat): State
    requires Usable(cfg)
  {
    var s := Collecting(expected, cfg, i);
    SetConn(s, i, Passed(cfg, i)).(updates := [Update(i, LastWord(cfg, i))])
  }

  lemma ForwardLeads(expected: nat, cfg: Config, i: nat)
    requires Usable(cfg) && i < expected
    ensures Leads(SetConn(Collecting(expected, cfg, i), i, Done(cfg, i)), Forward(i), Queueing(expected, cfg, i))
  {
    hide Line, Collected, Names, Done, Passed, LastWord, Usable, Leads, CanForward, DoForward;
    DoneFacts(cfg, i);
    var s := Collecting(expected, cfg, i);
    var t := SetConn(s, i, Done(cfg, i));
    ForwardOf(t, i);
    assert s.conns[i := Done(cfg, i)][i := Passed(cfg, i)] == s.conns[i := Passed(cfg, i)];
    assert [] + [Update(i, LastWord(cfg, i))] == [Update(i, LastWord(cfg, i))];
  }

  lemma NextStarted(expected: nat, cfg: Config, i: nat)
    requires Usable(cfg) && i < expected
    ensures var s := Collecting(expected, cfg, i);
      s.cfg == cfg && SetConn(s, i, Started(cfg, i)) == s
  {
    hide Line, Started, Usable, Collected, Names;
    LineNext(cfg, expected, i, HasPassed, IsStarted);
    SetSame(Collecting(expected, cfg, i), i);
  }

  lemma SetSame(s: State, c: ConnId)
    requires c in s.conns
    ensures SetConn(s, c, s.conns[c]) == s
  {
    assert s.conns[c := s.conns[c]] == s.conns;
  }

  lemma Queue(expected: nat, cfg: Config, i: nat)
    requires Usable(cfg) && i < expected && Reachable(expected, cfg, Collecting(expected, cfg, i))
    ensures Reachable(expected, cfg, Queueing(expected, cfg, i))
  {
    hide Reachable, Leads, Done, Queueing, Collecting, Started, Usable, SetConn;
    NextStarted(expected, cfg, i);
    var s := Collecting(expected, cfg, i);
    Work(expected, cfg, s, i);
    ForwardLeads(expected, cfg, i);
    Go(expected, cfg, SetConn(s, i, Done(cfg, i)), Forward(i), Queueing(expected, cfg, i));
  }

  lemma TakeOf(s: State)
    requires s.phase == Receiving && s.updates != []
    ensures Leads(s, TakeUpdate, DoTakeUpdate(s))
  {
  }

  lemma Recorded_(expected: nat, cfg: Config, i: nat)
    requires Usable(cfg) && i < expected
    ensures var c, m := Collected(expected, cfg, i), LastWord(cfg, i);
      && m.id in c.workers && m.state == Completed
      && Record(c, m).(completed := i + 1) == Collected(expected, cfg, i + 1)
  {
    var n := Transactors(cfg);
    CP.TransactorsPositive(cfg);
    NamesKeys(expected);
    TallyFacts(expected, i, n);
    TallyFacts(expected, i, n * cfg.size);
    assert n * cfg.size > 0;
    hide Name, Names, Tally, Transactors;
  }

  lemma UptoGrows(i: nat)
    ensures Upto(0, i) + {i} == Upto(0, i + 1)
  {
  }

  lemma CountLeads(expected: nat, cfg: Config, i: nat)
    requires Usable(cfg) && i + 1 < expected
    ensures Leads(Queueing(expected, cfg, i), TakeUpdate, Collecting(expected, cfg, i + 1))
  {
    hide Leads, Usable, Collecting, Collected, LastWord, Upto, Record;
    Recorded_(expected, cfg, i);
    PassedLine(expected, cfg, i);
    UptoGrows(i);
    QueueingFacts(expected, cfg, i);
    CollectingFacts(expected, cfg, i + 1);
    CountedOf(Queueing(expected, cfg, i), i, LastWord(cfg, i), Collected(expected, cfg, i + 1));
    hide Queueing;
  }

  lemma PassedLine(expected: nat, cfg: Config, i: nat)
    requires Usable(cfg) && i < expected
    ensures Queueing(expected, cfg, i).conns == Line(cfg, expected, i + 1, HasPassed, IsStarted)
  {
    LineNext(cfg, expected, i, HasPassed, IsStarted);
    assert At(cfg, HasPassed, i) == Passed(cfg, i);
    hide At, Line, Names, Collected, Passed, LastWord, Usable;
  }

  lemma QueueingFacts(expected: nat, cfg: Config, i: nat)
    requires Usable(cfg)
    ensures var s := Queueing(expected, cfg, i);
      s == State(expected, cfg, Receiving, Collected(expected, cfg, i), s.conns, [], [], [Update(i, LastWord(cfg, i))],
                 Names(expected), Upto(0, i), {}, [])
    ensures Collected(expected, cfg, i).completed == i
  {
    hide Line, Passed, LastWord, Usable, Names, Upto, Tally;
  }

  lemma CollectingFacts(expected: nat, cfg: Config, i: nat)
    requires Usable(cfg)
    ensures Collecting(expected, cfg, i)
         == State(expected, cfg, Receiving, Collected(expected, cfg, i), Line(cfg, expected, i, HasPassed, IsStarted),
                  [], [], [], Names(expected), Upto(0, i), {}, [])
  {
    hide Line, Usable, Names, Upto, Collected;
  }

  lemma CountedOf(s: State, c: ConnId, m: WorkerMsg, coord: Coord)
    requires s.phase == Receiving && s.updates == [Update(c, m)] && m.id in s.coord.workers && m.state == Completed
    requires s.coord.completed + 1 < s.expected && coord == Record(s.coord, m).(completed := s.coord.completed + 1)
    ensures Leads(s, TakeUpdate, s.(updates := [], coord := coord, counted := s.counted + {c}))
  {
    hide SumMap;
    assert s.updates[1..] == [];
    TakeOf(s);
  }

  lemma {:induction false} Collect(expected: nat, cfg: Config, i: nat)
    requires Validate(cfg).Ok? && Usable(cfg) && expected >= 1 && i < expected
    ensures Reachable(expected, cfg, Collecting(expected, cfg, i))
  {
    hide Validate, Reachable, Usable, Leads, Collecting, Launching, Queueing;
    if i == 0 {
      Launch(expected, cfg, expected);
      FirstCollect(expected, cfg);
    } else {
      Collect(expected, cfg, i - 1);
      Queue(expected, cfg, i - 1);
      CountLeads(expected, cfg, i - 1);
      Go(expected, cfg, Queueing(expected, cfg, i - 1), TakeUpdate, Collecting(expected, cfg, i));
    }
  }

  lemma LastSucceeds(expected: nat, cfg: Config)
    requires Usable(cfg) && expected >= 1
    ensures var s := Queueing(expected, cfg, expected - 1);
      && Possible(s, TakeUpdate)
      && Next(s, TakeUpdate).phase == Finished(true)
      && Next(s, TakeUpdate).coord.totalTxs == expected * Transactors(cfg)
      && Next(s, TakeUpdate).coord.totalBytes == expected * (Transactors(cfg) * cfg.size)
  {
    hide Usable, Leads, Collected, LastWord, Upto, Record, SumMap, Names, Possible, Next;
    Recorded_(expected, cfg, expected - 1);
    QueueingFacts(expected, cfg, expected - 1);
    LastOf(Queueing(expected, cfg, expected - 1), expected - 1, LastWord(cfg, expected - 1), Collected(expected, cfg, expected));
    CollectedSums(expected, cfg);
    hide Queueing, Transactors;
  }

  lemma CollectedSums(expected: nat, cfg: Config)
    requires Usable(cfg)
    ensures var c := Collected(expected, cfg, expected);
      SumMap(c.txsPerWorker) == expected * Transactors(cfg) && SumMap(c.bytesPerWorker) == expected * (Transactors(cfg) * cfg.size)
  {
    TallySum(expected, expected, Transactors(cfg));
    TallySum(expected, expected, Transactors(cfg) * cfg.size);
    hide SumMap, Tally, Transactors, Names;
  }

  lemma LastOf(s: State, c: ConnId, m: WorkerMsg, coord: Coord)
    requires s.phase == Receiving && s.updates == [Update(c, m)] && m.id in s.coord.workers && m.state == Completed
    requires s.coord.completed + 1 == s.expected && coord == Record(s.coord, m).(completed := s.coord.completed + 1)
    ensures Possible(s, TakeUpdate) && Next(s, TakeUpdate).phase == Finished(true)
    ensures Next(s, TakeUpdate).coord == Publish(coord)
  {
    hide SumMap;
    TakeOf(s);
  }

  /**
   * For every number of workers and every valid configuration the coordinator can succeed, with one transaction from
   * each transactor of each worker in its totals.
   */
  lemma SuccessIsPossible(expected: nat, cfg: Config)
    requires Validate(cfg).Ok? && expected >= 1
    ensures cfg.connections >= 0 && Transactors(cfg) >= 1
    ensures exists s :: Reachable(expected, cfg, s) && s.phase == Finished(true)
                        && s.coord.totalTxs == expected * Transactors(cfg)
                        && s.coord.totalBytes == expected * (Transactors(cfg) * cfg.size)
  {
    ValidIsUsable(cfg);
    CP.TransactorsPositive(cfg);
    hide Validate, Reachable, Queueing, Possible, Next, Transactors, Collecting;
    Collect(expected, cfg, expected - 1);
    Queue(expected, cfg, expected - 1);
    LastSucceeds(expected, cfg);
    ReachNext(expected, cfg, Queueing(expected, cfg, expected - 1), TakeUpdate);
  }

  // ------------------------------------------------------------ a success that is lost

  /** The first worker's event loop has ended: its unregister request and its Completed update are both queued. */
  function Racing(expected: nat, cfg: Config): State
    requires Usable(cfg)
  {
    var s := Queueing(expected, cfg, 0);
    SetConn(s, 0, Passed(cfg, 0).(r := RGone(true))).(unregisters := [Leave(0, Name(0), false)])
  }

  lemma DepartOf(s: State, c: ConnId)
    requires c in s.conns && s.conns[c].r.RExiting? && |s.unregisters| < s.expected
    ensures Leads(s, Depart(c), DoDepart(s, c))
  {
  }

  lemma PassedFacts(cfg: Config, c: ConnId)
    requires Validate(cfg).Ok? && Usable(cfg)
    ensures var k := Passed(cfg, c);
      k.r == RExiting(true) && k.rid == Name(c) && FinishedCleanly(cfg, k.(r := RGone(true)))
  {
    hide Validate;
    HalfDone(cfg, Transactors(cfg));
    var k := Passed(cfg, c).(r := RGone(true));
    assert k.up[1].state == Completed;
    CP.TransactorsPositive(cfg);
    hide Name, Half, Transactors;
    assert k.group.stats != [] by {
      HalfSize(cfg, Transactors(cfg));
    }
  }

  lemma HalfSize(cfg: Config, n: nat)
    requires cfg.size >= 0
    ensures |Half(cfg, n, n).stats| == n
  {
  }

  lemma DepartLeads(expected: nat, cfg: Config)
    requires Validate(cfg).Ok? && Usable(cfg) && expected >= 1
    ensures Leads(Queueing(expected, cfg, 0), Depart(0), Racing(expected, cfg))
  {
    hide Line, Collected, Names, Name, Passed, LastWord, Usable, Leads, Validate, FinishedCleanly;
    PassedFacts(cfg, 0);
    var s := Queueing(expected, cfg, 0);
    DepartOf(s, 0);
    assert [] + [Leave(0, Name(0), false)] == [Leave(0, Name(0), false)];
  }

  lemma OvertakeOf(s: State, l: Leave, u: Update)
    requires s.phase == Receiving && s.unregisters == [l] && !l.err && s.updates == [u]
    requires u.msg.id == l.id && u.msg.state == Completed && s.ignored == {}
    ensures Possible(s, TakeLeave)
    ensures var t := Next(s, TakeLeave);
      && Possible(t, TakeUpdate)
      && Next(t, TakeUpdate).phase == Receiving && Next(t, TakeUpdate).ignored == {u.conn}
      && Next(t, TakeUpdate).conns == s.conns
  {
    hide Connection.Do, Connection.Enabled, SumMap;
    assert l.id !in s.coord.workers - {l.id};
  }

  /**
   * Success is not inevitable even when every worker completes cleanly, whatever their number and the configuration:
   * the unregister request travels on a channel of its own and may overtake the Completed update, which is then ignored.
   */
  lemma CompletionCanBeOvertaken(expected: nat, cfg: Config)
    requires Validate(cfg).Ok? && expected >= 1
    ensures exists s :: Reachable(expected, cfg, s) && s.phase == Receiving && s.ignored == {0} && 0 in s.conns
                        && FinishedCleanly(cfg, s.conns[0])
  {
    ValidIsUsable(cfg);
    hide Validate, Reachable, Usable, Leads, Queueing, Collecting, FinishedCleanly, Passed, LastWord, Possible, Next, SetConn;
    Collect(expected, cfg, 0);
    Queue(expected, cfg, 0);
    DepartLeads(expected, cfg);
    Go(expected, cfg, Queueing(expected, cfg, 0), Depart(0), Racing(expected, cfg));
    RacingFacts(expected, cfg);
    var s := Racing(expected, cfg);
    OvertakeOf(s, Leave(0, Name(0), false), Update(0, LastWord(cfg, 0)));
    ReachNext(expected, cfg, s, TakeLeave);
    ReachNext(expected, cfg, Next(s, TakeLeave), TakeUpdate);
  }

  lemma RacingFacts(expected: nat, cfg: Config)
    requires Validate(cfg).Ok? && Usable(cfg)
    ensures var s := Racing(expected, cfg);
      && s.phase == Receiving && s.ignored == {} && s.unregisters == [Leave(0, Name(0), false)]
      && s.updates == [Update(0, LastWord(cfg, 0))]
      && 0 in s.conns && FinishedCleanly(cfg, s.conns[0])
    ensures LastWord(cfg, 0).id == Name(0) && LastWord(cfg, 0).state == Completed
  {
    hide Line, Collected, Names, Name, Passed, Usable, Validate, FinishedCleanly, Transactors;
    PassedFacts(cfg, 0);
  }
}
