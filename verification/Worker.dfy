/** The Worker object: it registers, waits for the start, runs its transactor group, and reports. */
module Workers {
  import opened Basics
  import opened LoadConfig
  import opened ConfigCheck
  import opened CoordinatorModel
  import opened Connection
  import opened ConnectionProofs
  import opened ConnectionRuns
  import G = GroupModel

  /** One poll for the start signal: a read in time, a timeout, or a timeout after which a cancellation is noticed. */
  datatype Poll = Reads | TimedOut | CancelledPoll

  /** What happens next while the group runs: one of its own steps, or its progress callback with the fate of the write. */
  datatype GroupTurn = Does(g: G.Step) | Reports(o: Write)

  /** How a run over a finite prefix of its environment ends. */
  datatype Exit = Clean | WithError | Unfinished

  /** A poll ends the wait if a cancellation is noticed, or if it reads and there is a frame. */
  predicate Decisive(poll: Poll, inbound: seq<WorkerMsg>) {
    poll == CancelledPoll || (poll == Reads && inbound != [])
  }

  /** Poll `i` is the first that ends the wait. */
  ghost predicate DecidedAt(polls: seq<Poll>, inbound: seq<WorkerMsg>, i: int) {
    0 <= i < |polls| && Decisive(polls[i], inbound) && forall j :: 0 <= j < i ==> !Decisive(polls[j], inbound)
  }

  ghost predicate HasCompleted(ms: seq<WorkerMsg>) {
    exists i :: 0 <= i < |ms| && ms[i].state == Completed
  }

  /** A conversation in which nothing but the hello and progress reports has been sent. */
  ghost predicate Chatting(up: seq<WorkerMsg>, wid: string) {
    UpLegal(up, wid) && StillTalking(up)
  }

  lemma ChatGrows(up: seq<WorkerMsg>, wid: string, m: WorkerMsg, o: Write)
    requires Chatting(up, wid) && m.id == wid && m.state in {Testing, Completed, Failed}
    ensures m.state == Testing ==> Chatting(Put(up, m, o), wid)
    ensures UpLegal(Put(up, m, o), wid) && up <= Put(up, m, o)
    ensures HasCompleted(Put(up, m, o)) <==> m.state == Completed && o != Lost
  {
    PutUpLegal(up, wid, m, o);
    if m.state == Completed && o != Lost {
      assert Put(up, m, o)[|up|].state == Completed;
    }
  }

  lemma FailEnds(up: seq<WorkerMsg>, wid: string, o: Write)
    requires UpLegal(up, wid) && up != [] && forall i :: 0 <= i < |up| ==> up[i].state != Failed
    ensures UpLegal(Put(up, Plain(wid, Failed), o), wid)
    ensures HasCompleted(Put(up, Plain(wid, Failed), o)) <==> HasCompleted(up)
  {
    var up' := Put(up, Plain(wid, Failed), o);
    assert up <= up';
    if HasCompleted(up) {
      var i :| 0 <= i < |up| && up[i].state == Completed;
      assert up'[i].state == Completed;
    }
  }

  // ------------------------------------------------------------ the group, turn by turn

  /** What one turn makes of the group; a turn that is not possible is skipped. */
  function GroupAfter(c: Config, g: G.Group, turn: GroupTurn): G.Group {
    if c.size < 0 || !G.Shape(g) then g
    else match turn
      case Does(a) => if G.Enabled(c, g, a) && !a.MakeReport? then G.Do(c, g, a) else g
      case Reports(o) =>
        if g.pending.None? then g
        else if o == Sent then G.Do(c, g, G.MakeReport)
        else G.Do(c, G.Do(c, g, G.MakeReport), G.Cancel)
  }

  /** The frames that one turn puts on the wire. */
  function Says(id: string, g: G.Group, turn: GroupTurn): seq<WorkerMsg> {
    if turn.Reports? && g.pending.Some? && turn.o != Lost
    then [WorkerMsg(id, Testing, G.Level(g).txs, G.Level(g).bytes, None)] else []
  }

  /** The turns are taken until the group has ended. */
  function GroupRun(c: Config, g: G.Group, turns: seq<GroupTurn>): G.Group
    decreases |turns|
  {
    if turns == [] || G.Waited(g) then g else GroupRun(c, GroupAfter(c, g, turns[0]), turns[1..])
  }

  function Said(id: string, c: Config, g: G.Group, turns: seq<GroupTurn>): seq<WorkerMsg>
    decreases |turns|
  {
    if turns == [] || G.Waited(g) then []
    else Says(id, g, turns[0]) + Said(id, c, GroupAfter(c, g, turns[0]), turns[1..])
  }

  function TurnOf(a: G.Step): GroupTurn {
    if a.MakeReport? then Reports(Sent) else Does(a)
  }

  function TurnsOf(steps: seq<G.Step>): (turns: seq<GroupTurn>)
    ensures |turns| == |steps| && forall i :: 0 <= i < |steps| ==> turns[i] == TurnOf(steps[i])
  {
    if steps == [] then [] else [TurnOf(steps[0])] + TurnsOf(steps[1..])
  }

  /** Whatever a group can do before it has ended, the worker lets it do: every run of the group model is followed. */
  lemma {:induction false} FollowsRun(c: Config, n: nat, run: seq<G.Group>, steps: seq<G.Step>, k: nat)
    requires G.TakesSteps(c, n, run, steps) && k <= |steps|
    requires forall i :: k <= i < |steps| ==> !G.Waited(run[i])
    ensures GroupRun(c, run[k], TurnsOf(steps)[k..]) == run[|steps|]
    decreases |steps| - k
  {
    hide G.Do, G.Enabled, G.Waited, G.Start;
    if k < |steps| {
      var turns := TurnsOf(steps);
      assert G.Enabled(c, run[k], steps[k]) && run[k + 1] == G.Do(c, run[k], steps[k]);
      ReportsWhenPending(c, run[k], steps[k]);
      assert turns[k..][0] == TurnOf(steps[k]) && turns[k..][1..] == turns[k + 1..];
      FollowsRun(c, n, run, steps, k + 1);
    }
  }

  lemma ReportsWhenPending(c: Config, g: G.Group, a: G.Step)
    requires c.size >= 0 && G.Shape(g) && G.Enabled(c, g, a)
    ensures GroupAfter(c, g, TurnOf(a)) == G.Do(c, g, a)
  {
    hide G.Do;
  }

  /** Before a configuration is accepted the steps do not depend on one. */
  ghost predicate LeadsAnyhow(k: Conn, l: Conn) {
    forall c :: WorkerLeads(c, k, l)
  }

  lemma AnyhowLeads(cfg: Config, k: Conn, l: Conn)
    requires LeadsAnyhow(k, l)
    ensures WorkerLeads(cfg, k, l)
  {
  }

  lemma DoesAnyhow(k: Conn, l: Conn, a: Step, m: Conn)
    requires LeadsAnyhow(k, l) && WorkerOwn(a) && forall c :: Enabled(c, l, a) && Do(c, l, a) == m
    ensures LeadsAnyhow(k, m)
  {
    hide WorkerLeads, Enabled, Do;
    forall c ensures WorkerLeads(c, k, m) {
      assert Enabled(c, l, a) && Do(c, l, a) == m;
      WorkerDoes(c, k, l, a);
    }
  }

  lemma HelloMoves(start: Conn, k: Conn, o: Write)
    requires LeadsAnyhow(start, k) && k.w == WRegister && k.upRead <= |k.up| && k.downRead <= |k.down|
    ensures LeadsAnyhow(start, k.(w := if o == Sent then WAwaitAccept else WEnded, up := Put(k.up, Plain(k.wid, Unset), o)))
  {
    hide LeadsAnyhow;
    DoesAnyhow(start, k, Hello(o), k.(w := if o == Sent then WAwaitAccept else WEnded, up := Put(k.up, Plain(k.wid, Unset), o)));
  }

  lemma ReplyMoves(start: Conn, k: Conn, o: Write, cancelled: bool)
    requires LeadsAnyhow(start, k) && k.w == WAwaitAccept && k.upRead <= |k.up| && k.downRead < |k.down|
    ensures LeadsAnyhow(start, DoReply(k, o, cancelled))
    ensures var m, l := k.down[k.downRead], DoReply(k, o, cancelled);
      var bad := m.config.None? || Validate(m.config.value).Err?;
      var ok := m.state == Accepted && !bad && !cancelled;
      l == k.(downRead := k.downRead + 1, w := if ok then WAwaitStart else WEnded, cfg := if ok then m.config else k.cfg,
              up := if m.state == Accepted && bad then Put(k.up, Plain(k.wid, Failed), o) else k.up)
  {
    ReplyEffect(k, o, cancelled);
    hide LeadsAnyhow, DoReply, Put, Validate;
    DoesAnyhow(start, k, ReadReply(o, cancelled), DoReply(k, o, cancelled));
  }

  lemma ReplyEffect(k: Conn, o: Write, cancelled: bool)
    requires k.downRead < |k.down|
    ensures var m, l := k.down[k.downRead], DoReply(k, o, cancelled);
      var bad := m.config.None? || Validate(m.config.value).Err?;
      var ok := m.state == Accepted && !bad && !cancelled;
      l == k.(downRead := k.downRead + 1, w := if ok then WAwaitStart else WEnded, cfg := if ok then m.config else k.cfg,
              up := if m.state == Accepted && bad then Put(k.up, Plain(k.wid, Failed), o) else k.up)
  {
    hide Put, Validate;
  }

  lemma FinishMoves(cfg: Config, start: Conn, k: Conn, o: Write, o2: Write)
    requires WorkerLeads(cfg, start, k) && k.w == WTesting && G.Waited(k.group)
    requires k.upRead <= |k.up| && k.downRead <= |k.down|
    ensures WorkerLeads(cfg, start, DoFinish(k, o, o2))
    ensures var r, l := G.Level(k.group), DoFinish(k, o, o2);
      && l == k.(w := WEnded, reported := l.reported, up := l.up)
      && l.up == if k.group.waitErr then Put(k.up, Plain(k.wid, Failed), o)
                 else var done := Put(k.up, WorkerMsg(k.wid, Completed, r.txs, r.bytes, None), o);
                   if o == Sent then done else Put(done, Plain(k.wid, Failed), o2)
  {
    hide WorkerLeads, G.Waited, G.Level, Put;
    WorkerDoes(cfg, start, k, Finish(o, o2));
  }

  lemma ShortUps(wid: string, o: Write)
    ensures UpLegal([], wid) && UpLegal(Put([], Plain(wid, Unset), o), wid)
    ensures forall i :: 0 <= i < |Put([], Plain(wid, Unset), o)| ==> !IsReport(Put([], Plain(wid, Unset), o)[i])
  {
  }

  class Worker {
    const id: string
    var cfg: Option<Config>
    var inbound: seq<WorkerMsg>          // frames of the coordinator that have not been read
    var launched: bool                   // have the transactors been started?
    var group: G.Group                   // the transactor group, once launched
    ghost var sent: seq<WorkerMsg>
    ghost var k: Conn                    // the same connection as a state of the protocol

    /** The object's state is that of the protocol's connection, and its steps so far were steps of the protocol. */
    ghost predicate Mirrors()
      reads this
    {
      && k.wid == id && k.cfg == cfg && k.up == sent && k.upRead == 0
      && k.downRead <= |k.down| && k.down[k.downRead..] == inbound
      && (launched <==> Launched(k)) && (launched ==> k.group == group)
      && Tracked()
    }

    ghost predicate Tracked()
      reads this
    {
      if cfg.Some? then WorkerLeads(cfg.value, Open(id), k) else LeadsAnyhow(Open(id), k)
    }

    constructor (id: string, inbound: seq<WorkerMsg>)
      ensures this.id == id && this.inbound == inbound && cfg == None && !launched && sent == []
      ensures Mirrors() && k == Open(id).(down := inbound)
    {
      this.id, this.inbound := id, inbound;
      cfg, launched, group := None, false, G.Start(0);
      sent := [];
      k := Open(id).(down := inbound);
      new;
      forall c ensures WorkerLeads(c, Open(id), k) {
        WorkerStays(c, Open(id));
        WorkerThen(c, Open(id), Open(id), k);
      }
    }

    method WriteWorkerMsg(m: WorkerMsg, o: Write) returns (ok: bool)
      modifies this`sent
      ensures ok <==> o == Sent
      ensures sent == Put(old(sent), m, o)
    {
      sent := Put(sent, m, o);
      return o == Sent;
    }

    /** The first frame is read and judged. */
    method ReadReply(cancelled: bool, o: Write) returns (ok: bool)
      requires Mirrors() && k.w == WAwaitAccept && inbound != [] && cfg == None
      modifies this`sent, this`inbound, this`cfg, this`k
      ensures Mirrors() && inbound == old(inbound)[1..]
      ensures var m := old(inbound)[0];
        && (ok <==> !cancelled && m.state == Accepted && m.config.Some? && Validate(m.config.value).Ok?)
        && cfg == (if ok then m.config else None)
        && sent == if m.state == Accepted && (m.config.None? || Validate(m.config.value).Err?)
                   then Put(old(sent), Plain(id, Failed), o) else old(sent)
      ensures k.w == if ok then WAwaitStart else WEnded
    {
      hide Validate, LeadsAnyhow, WorkerLeads, DoReply;
      var resp := inbound[0];
      inbound := inbound[1..];
      assert k.down[k.downRead] == resp && k.down[k.downRead..][1..] == k.down[k.downRead + 1..];
      ReplyMoves(Open(id), k, o, cancelled);
      k := DoReply(k, o, cancelled);
      if resp.state != Accepted {
        return false;
      }
      if resp.config.None? || Validate(resp.config.value).Err? {
        var _ := WriteWorkerMsg(Plain(id, Failed), o);
        return false;
      }
      if cancelled {
        return false;
      }
      cfg := resp.config;
      AnyhowLeads(cfg.value, Open(id), k);
      return true;
    }

    /** Succeeds exactly when the coordinator's first frame accepts this worker with a valid configuration. */
    method Register(o: Write, arrives: bool, cancelled: bool, o2: Write) returns (ok: bool)
      requires Mirrors() && k.w == WRegister && sent == [] && cfg == None
      modifies this`sent, this`inbound, this`cfg, this`k
      ensures Mirrors() && k.w == if ok then WAwaitStart else WEnded
      ensures ok ==> sent == [Plain(id, Unset)] && old(inbound) != [] && inbound == old(inbound)[1..]
      ensures ok <==> o == Sent && arrives && !cancelled && old(inbound) != [] && old(inbound)[0].state == Accepted
                      && old(inbound)[0].config.Some? && Validate(old(inbound)[0].config.value).Ok?
      ensures cfg == if ok then old(inbound)[0].config else None
      ensures UpLegal(sent, id) && forall i :: 0 <= i < |sent| ==> !IsReport(sent[i])
    {
      hide Mirrors, Validate, UpLegal;
      HelloIsChat(id, o2);
      ShortUps(id, o);
      var written := SayHello(o);
      if !written {
        return false;
      }
      assert sent == [Plain(id, Unset)];
      if !arrives || inbound == [] {
        GiveUp();
        return false;
      }
      ok := ReadReply(cancelled, o2);
    }

    method SayHello(o: Write) returns (ok: bool)
      requires Mirrors() && k.w == WRegister && cfg == None
      modifies this`sent, this`k
      ensures Mirrors() && (ok <==> o == Sent) && sent == Put(old(sent), Plain(id, Unset), o)
      ensures k.w == if ok then WAwaitAccept else WEnded
    {
      hide LeadsAnyhow;
      ok := WriteWorkerMsg(Plain(id, Unset), o);
      HelloMoves(Open(id), k, o);
      k := k.(w := if o == Sent then WAwaitAccept else WEnded, up := Put(k.up, Plain(k.wid, Unset), o));
    }

    /** No answer arrives. */
    method GiveUp()
      requires Mirrors() && k.w == WAwaitAccept && cfg == None
      modifies this`k
      ensures Mirrors() && k.w == WEnded
    {
      hide LeadsAnyhow;
      DoesAnyhow(Open(id), k, ReplyMissing, k.(w := WEnded));
      k := k.(w := WEnded);
    }

    /** `Worker.fail`, when the wait for the start is over without one. */
    method Fail(o: Write)
      requires Mirrors() && k.w == WAwaitStart && cfg.Some?
      modifies this`sent, this`k
      ensures Mirrors() && k.w == WEnded && sent == Put(old(sent), Plain(id, Failed), o)
    {
      hide WorkerLeads;
      var _ := WriteWorkerMsg(Plain(id, Failed), o);
      WorkerDoes(cfg.value, Open(id), k, StartCancelled(o));
      k := Connection.Fail(k, o);
    }

    /** A frame has arrived: anything but Testing is an error, of which the coordinator is told. */
    method ReadStart(o: Write) returns (ok: bool)
      requires Mirrors() && k.w == WAwaitStart && cfg.Some? && inbound != []
      modifies this`inbound, this`sent, this`k
      ensures Mirrors() && inbound == old(inbound)[1..] && (ok <==> old(inbound)[0].state == Testing)
      ensures sent == if ok then old(sent) else Put(old(sent), Plain(id, Failed), o)
      ensures k.w == if ok then WConnect else WEnded
    {
      hide WorkerLeads;
      var msg := inbound[0];
      inbound := inbound[1..];
      assert k.down[k.downRead] == msg && k.down[k.downRead..][1..] == k.down[k.downRead + 1..];
      WorkerDoes(cfg.value, Open(id), k, Step.ReadStart(o));
      k := DoStart(k, o);
      ok := msg.state == Testing;
      if !ok {
        var _ := WriteWorkerMsg(Plain(id, Failed), o);
      }
    }

    /**
     * The first poll that finds a frame or notices a cancellation decides: the worker goes on exactly when that is a
     * Testing frame, and otherwise tells the coordinator that it failed.
     */
    method WaitForStart(polls: seq<Poll>, o: Write) returns (exit: Exit)
      requires Mirrors() && k.w == WAwaitStart && cfg.Some?
      modifies this`inbound, this`sent, this`k
      ensures Mirrors()
      ensures exit.Unfinished? <==> forall i :: 0 <= i < |polls| ==> !DecidedAt(polls, old(inbound), i)
      ensures exit.Clean? <==> exists i :: DecidedAt(polls, old(inbound), i) && polls[i] == Reads
                                             && old(inbound)[0].state == Testing
      ensures exit.Clean? ==> inbound == old(inbound)[1..]
      ensures sent == if exit.WithError? then Put(old(sent), Plain(id, Failed), o) else old(sent)
      ensures k.w == match exit
                     case Clean => WConnect
                     case WithError => WEnded
                     case Unfinished => WAwaitStart
    {
      hide Mirrors;
      var i := 0;
      while i < |polls|
        invariant 0 <= i <= |polls| && inbound == old(inbound) && sent == old(sent) && k == old(k) && Mirrors()
        invariant forall j :: 0 <= j < i ==> !Decisive(polls[j], inbound)
      {
        match polls[i] {
          case Reads =>
            if inbound == [] {
              i := i + 1;
              continue;
            }
            assert DecidedAt(polls, inbound, i);
            var ok := ReadStart(o);
            return if ok then Clean else WithError;
          case TimedOut =>
          case CancelledPoll =>
            assert DecidedAt(polls, inbound, i);
            Fail(o);
            return WithError;
        }
        i := i + 1;
      }
      return Unfinished;
    }

    /** All transactors are connected and started, or none is. */
    method Launch(dialled: bool, o: Write)
      requires Mirrors() && k.w == WConnect && !launched && cfg.Some? && Validate(cfg.value).Ok?
      modifies this`launched, this`group, this`sent, this`k
      ensures Mirrors() && launched == dialled
      ensures launched ==> G.Inv(cfg.value, group) && |group.stats| == |cfg.value.endpoints| * cfg.value.connections
      ensures launched ==> group == G.Start(|cfg.value.endpoints| * cfg.value.connections)
      ensures sent == if launched then old(sent) else Put(old(sent), Plain(id, Failed), o)
      ensures k.w == if launched then WTesting else WEnded
    {
      hide WorkerLeads, Validate, G.Inv;
      ValidIsUsable(cfg.value);
      TransactorsPositive(cfg.value);
      var n := |cfg.value.endpoints| * cfg.value.connections;
      G.StartInv(cfg.value, n);
      WorkerDoes(cfg.value, Open(id), k, ConnectAll(dialled, o));
      k := Do(cfg.value, k, ConnectAll(dialled, o));
      if dialled {
        launched, group := true, G.Start(n);
      } else {
        var _ := WriteWorkerMsg(Plain(id, Failed), o);
      }
    }

    /** The group runs. A progress report that cannot be written cancels it. */
    method GroupDoes(turn: GroupTurn)
      requires Mirrors() && k.w == WTesting && launched && cfg.Some? && G.Inv(cfg.value, group) && Chatting(sent, id)
      modifies this`group, this`sent, this`k
      ensures Mirrors() && k.w == WTesting && G.Inv(cfg.value, group) && Chatting(sent, id)
      ensures group == GroupAfter(cfg.value, old(group), turn)
      ensures sent == old(sent) + Says(id, old(group), turn)
      ensures |group.stats| == old(|group.stats|)
      ensures turn.Reports? && old(group).pending.Some? && turn.o != Sent ==>
                forall i :: 0 <= i < |group.stats| ==> group.stats[i].stopErr
    {
      hide WorkerLeads, G.Inv, UpLegal;
      var c := cfg.value;
      assert Usable(c) && G.Shape(group) by {
        InvShape(c, group);
      }
      match turn {
        case Does(g) =>
          hide G.Do, G.Enabled;
          if G.Enabled(c, group, g) && !g.MakeReport? {
            G.StepInv(c, group, g);
            WorkerDoes(c, Open(id), k, GroupStep(g));
            k := k.(group := G.Do(c, group, g));
            group := G.Do(c, group, g);
          }
        case Reports(o) =>
          if group.pending.Some? {
            ReportProgress(o);
          }
      }
    }

    /** The progress callback: the group is told to stop if its report cannot be written. */
    method ReportProgress(o: Write)
      requires Mirrors() && k.w == WTesting && launched && cfg.Some? && G.Inv(cfg.value, group) && Chatting(sent, id)
      requires group.pending.Some?
      modifies this`group, this`sent, this`k
      ensures sent == Put(old(sent), WorkerMsg(id, Testing, G.Level(old(group)).txs, G.Level(old(group)).bytes, None), o)
      ensures group == GroupAfter(cfg.value, old(group), Reports(o))
      ensures Mirrors() && k.w == WTesting && G.Inv(cfg.value, group) && Chatting(sent, id)
      ensures |group.stats| == old(|group.stats|)
      ensures o != Sent ==> forall i :: 0 <= i < |group.stats| ==> group.stats[i].stopErr
    {
      hide WorkerLeads, G.Inv, UpLegal, Chatting;
      var c := cfg.value;
      InvShape(c, group);
      var r := G.Level(group);
      var m := WorkerMsg(id, Testing, r.txs, r.bytes, None);
      ReportedGroup(c, group);
      ChatGrows(sent, id, m, o);
      WorkerDoes(c, Open(id), k, Step.ReportProgress(o));
      k := DoReport(c, k, o);
      group := G.Do(c, group, G.MakeReport);
      var ok := WriteWorkerMsg(m, o);
      if !ok {
        group := G.Do(c, group, G.Cancel);
      }
    }

    /**
     * `Wait` has returned. Without an error, one Completed is sent that carries the sums of what all transactors have
     * recorded; `o2` is the fate of the Failed that follows if that write fails.
     */
    method Finish(o: Write, o2: Write) returns (ok: bool)
      requires Mirrors() && k.w == WTesting && launched && cfg.Some? && G.Inv(cfg.value, group) && Chatting(sent, id)
      requires G.Waited(group)
      modifies this`sent, this`k
      ensures Mirrors() && k.w == WEnded
      ensures ok <==> !group.waitErr && o == Sent
      ensures sent == LastSaid(old(sent), id, group, o, o2)
      ensures UpLegal(sent, id)
      ensures HasCompleted(sent) <==> !group.waitErr && o != Lost
      ensures CompletedWith(sent, G.Totals(group))
    {
      hide WorkerLeads, G.Inv, UpLegal, CompletedWith, HasCompleted, Chatting, G.Waited, G.Level, G.Totals, DoFinish;
      var r := G.Level(group);
      G.WaitedTotals(cfg.value, group);
      ghost var first := if group.waitErr then o2 else o;
      FinishMoves(cfg.value, Open(id), k, first, o2);
      k := DoFinish(k, first, o2);
      LastWords(sent, id, r, o, o2);
      if group.waitErr {
        var _ := WriteWorkerMsg(Plain(id, Failed), o2);
        return false;
      }
      ok := WriteWorkerMsg(WorkerMsg(id, Completed, r.txs, r.bytes, None), o);
      if !ok {
        var _ := WriteWorkerMsg(Plain(id, Failed), o2);
      }
    }

    /** The group runs until it has ended, or until there are no more turns. */
    method Wait(turns: seq<GroupTurn>)
      requires Mirrors() && k.w == WTesting && launched && cfg.Some? && G.Inv(cfg.value, group) && Chatting(sent, id)
      modifies this`group, this`sent, this`k
      ensures Mirrors() && k.w == WTesting && G.Inv(cfg.value, group) && Chatting(sent, id)
      ensures |group.stats| == old(|group.stats|)
      ensures group == GroupRun(cfg.value, old(group), turns)
      ensures sent == old(sent) + Said(id, cfg.value, old(group), turns)
    {
      hide Mirrors, G.Inv, Chatting, GroupRun, Said, GroupAfter, Says, G.Waited;
      ghost var first, before := group, sent;
      assert turns[0..] == turns;
      var i := 0;
      while i < |turns| && !G.Waited(group)
        invariant 0 <= i <= |turns|
        invariant Mirrors() && k.w == WTesting && G.Inv(cfg.value, group) && Chatting(sent, id)
        invariant |group.stats| == old(|group.stats|)
        invariant GroupRun(cfg.value, first, turns) == GroupRun(cfg.value, group, turns[i..])
        invariant before + Said(id, cfg.value, first, turns) == sent + Said(id, cfg.value, group, turns[i..])
      {
        RunsOn(cfg.value, id, group, turns[i..]);
        assert turns[i..][0] == turns[i] && turns[i..][1..] == turns[i + 1..];
        GroupDoes(turns[i]);
        i := i + 1;
      }
      RunsOut(cfg.value, id, group, turns[i..]);
    }

    /** Connects, runs the group until it has ended, and reports the outcome. */
    method ExecuteLoadTest(dialled: bool, turns: seq<GroupTurn>, o: Write, o2: Write) returns (exit: Exit)
      requires Mirrors() && k.w == WConnect && !launched && cfg.Some? && Validate(cfg.value).Ok? && Chatting(sent, id)
      modifies this`launched, this`group, this`sent, this`k
      ensures Mirrors() && launched == dialled
      ensures launched ==> G.Inv(cfg.value, group) && |group.stats| == |cfg.value.endpoints| * cfg.value.connections
      ensures launched ==> group == GroupRun(cfg.value, G.Start(|cfg.value.endpoints| * cfg.value.connections), turns)
      ensures launched ==>
                sent == LastSaid(old(sent) + Said(id, cfg.value, G.Start(|cfg.value.endpoints| * cfg.value.connections), turns),
                                 id, group, o, o2)
      ensures !launched ==> sent == Put(old(sent), Plain(id, Failed), o2)
      ensures exit.Unfinished? <==> launched && !G.Waited(group)
      ensures exit.Clean? <==> launched && G.Waited(group) && !group.waitErr && o == Sent
      ensures UpLegal(sent, id)
      ensures HasCompleted(sent) <==> launched && G.Waited(group) && !group.waitErr && o != Lost
      ensures CompletedWith(sent, G.Totals(group))
      ensures k.w == if exit.Unfinished? then WTesting else WEnded
    {
      hide Mirrors, Validate, G.Inv, Chatting, UpLegal, CompletedWith, HasCompleted, GroupRun, Said, G.Waited, G.Totals;
      ChatIsLegal(sent, id, G.Totals(group));
      ChatEnds(sent, id, o2);
      Launch(dialled, o2);
      if !launched {
        return WithError;
      }
      Wait(turns);
      ChatIsLegal(sent, id, G.Totals(group));
      if !G.Waited(group) {
        return Unfinished;
      }
      var ok := Finish(o, o2);
      exit := if ok then Clean else WithError;
    }

    /**
     * The whole life of a worker; every step of it is a step of the protocol. Its transactors run only after it was
     * accepted with a valid configuration and then told to start, what it sends is always a legal upward conversation,
     * and a Completed gets out only after a clean run of its group, with the group's final totals.
     */
    method Run(hello: Write, arrives: bool, cancelled: bool, polls: seq<Poll>, dialled: bool, turns: seq<GroupTurn>,
               o: Write, fail: Write)
      returns (exit: Exit)
      requires Mirrors() && k.w == WRegister && sent == [] && cfg == None && !launched
      modifies this
      ensures Mirrors()
      ensures exit.Unfinished? <==> k.w != WEnded
      ensures UpLegal(sent, id)
      ensures launched <==>
                && hello == Sent && arrives && !cancelled && |old(inbound)| >= 2
                && old(inbound)[0].state == Accepted && old(inbound)[0].config.Some?
                && Validate(old(inbound)[0].config.value).Ok?
                && old(inbound)[1].state == Testing
                && (exists i :: DecidedAt(polls, old(inbound)[1..], i) && polls[i] == Reads) && dialled
      ensures launched ==>
                && |old(inbound)| >= 2 && old(inbound)[0].state == Accepted && old(inbound)[1].state == Testing
                && cfg == old(inbound)[0].config && cfg.Some? && Validate(cfg.value).Ok? && G.Inv(cfg.value, group)
      ensures (exists i :: 0 <= i < |sent| && IsReport(sent[i])) ==> launched
      ensures HasCompleted(sent) <==> launched && G.Waited(group) && !group.waitErr && o != Lost
      ensures HasCompleted(sent) ==> CompletedWith(sent, G.Totals(group))
      ensures exit.Clean? <==> launched && G.Waited(group) && !group.waitErr && o == Sent
    {
      hide Validate, G.Inv, WorkerLeads;
      ghost var frames := inbound;
      var ok := Register(hello, arrives, cancelled, fail);
      if !ok {
        return WithError;
      }
      HelloIsChat(id, fail);
      exit := WaitForStart(polls, fail);
      if !exit.Clean? {
        return;
      }
      exit := ExecuteLoadTest(dialled, turns, o, fail);
    }
  }

  /** Every Completed carries the given totals. */
  ghost predicate CompletedWith(ms: seq<WorkerMsg>, totals: G.Report) {
    forall i :: 0 <= i < |ms| && ms[i].state == Completed ==>
      ms[i].txCount == totals.txs && ms[i].totalTxBytes == totals.bytes
  }

  /** How a worker takes its leave once its group has ended; before that it has nothing to add. */
  function LastSaid(said: seq<WorkerMsg>, id: string, g: G.Group, o: Write, o2: Write): seq<WorkerMsg> {
    if !G.Waited(g) then said
    else if g.waitErr then Put(said, Plain(id, Failed), o2)
    else
      var done := Put(said, WorkerMsg(id, Completed, G.Level(g).txs, G.Level(g).bytes, None), o);
      if o == Sent then done else Put(done, Plain(id, Failed), o2)
  }

  lemma RunsOn(c: Config, id: string, g: G.Group, turns: seq<GroupTurn>)
    requires turns != [] && !G.Waited(g)
    ensures GroupRun(c, g, turns) == GroupRun(c, GroupAfter(c, g, turns[0]), turns[1..])
    ensures Said(id, c, g, turns) == Says(id, g, turns[0]) + Said(id, c, GroupAfter(c, g, turns[0]), turns[1..])
  {
  }

  lemma RunsOut(c: Config, id: string, g: G.Group, turns: seq<GroupTurn>)
    requires turns == [] || G.Waited(g)
    ensures GroupRun(c, g, turns) == g && Said(id, c, g, turns) == []
  {
  }

  lemma InvShape(c: Config, g: G.Group)
    requires G.Inv(c, g)
    ensures Usable(c) && G.Shape(g)
  {
  }

  lemma ReportedGroup(c: Config, g: G.Group)
    requires G.Inv(c, g) && g.pending.Some?
    ensures Usable(c) && G.Shape(g)
    ensures var g' := G.Do(c, g, G.MakeReport);
      && G.Inv(c, g') && G.Shape(g') && |g'.stats| == |g.stats|
      && G.Inv(c, G.Do(c, g', G.Cancel)) && |G.Do(c, g', G.Cancel).stats| == |g.stats|
      && forall i :: 0 <= i < |g.stats| ==> G.Do(c, g', G.Cancel).stats[i].stopErr
  {
    InvShape(c, g);
    hide G.Inv;
    G.StepInv(c, g, G.MakeReport);
    G.StepInv(c, G.Do(c, g, G.MakeReport), G.Cancel);
  }

  lemma ChatIsLegal(up: seq<WorkerMsg>, wid: string, totals: G.Report)
    requires Chatting(up, wid)
    ensures UpLegal(up, wid) && !HasCompleted(up) && CompletedWith(up, totals)
  {
  }

  lemma ChatEnds(up: seq<WorkerMsg>, wid: string, o: Write)
    requires Chatting(up, wid)
    ensures UpLegal(Put(up, Plain(wid, Failed), o), wid) && !HasCompleted(Put(up, Plain(wid, Failed), o))
    ensures forall totals :: CompletedWith(Put(up, Plain(wid, Failed), o), totals)
  {
    ChatGrows(up, wid, Plain(wid, Failed), o);
  }

  lemma HelloIsChat(wid: string, o: Write)
    ensures Chatting([Plain(wid, Unset)], wid)
    ensures forall i :: 0 <= i < |Put([Plain(wid, Unset)], Plain(wid, Failed), o)| ==>
              !IsReport(Put([Plain(wid, Unset)], Plain(wid, Failed), o)[i])
    ensures UpLegal(Put([Plain(wid, Unset)], Plain(wid, Failed), o), wid)
  {
    ChatEnds([Plain(wid, Unset)], wid, o);
  }

  /** The two ways in which a conversation ends once the group has. */
  lemma LastWords(up: seq<WorkerMsg>, wid: string, r: G.Report, o: Write, o2: Write)
    requires Chatting(up, wid)
    ensures var done := Put(up, WorkerMsg(wid, Completed, r.txs, r.bytes, None), o);
      var failed := Put(done, Plain(wid, Failed), o2);
      && UpLegal(done, wid) && (HasCompleted(done) <==> o != Lost) && CompletedWith(done, r)
      && UpLegal(failed, wid) && (HasCompleted(failed) <==> o != Lost) && CompletedWith(failed, r)
    ensures var failed := Put(up, Plain(wid, Failed), o2);
      UpLegal(failed, wid) && !HasCompleted(failed) && CompletedWith(failed, r)
  {
    var m := WorkerMsg(wid, Completed, r.txs, r.bytes, None);
    ChatGrows(up, wid, m, o);
    ChatEnds(up, wid, o2);
    FailEnds(Put(up, m, o), wid, o2);
  }
}
