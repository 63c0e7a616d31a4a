/** The remoteWorker object: the coordinator's end of one connection, driven by what its `select` loops receive. */
module RemoteWorkers {
  import opened Basics
  import opened LoadConfig
  import opened CoordinatorModel
  import opened Connection
  import opened Flow
  import opened ConnectionProofs
  import opened ConnectionRuns

  /** What one turn of an event loop finds. Reading takes the next frame off the wire. */
  datatype Turn = Ctrl(state: WorkerState, o: Write) | Readable | Unreadable | StopSignal

  /** How a loop over a finite prefix of its turns ends. */
  datatype Exit = Clean | WithError | Unfinished

  /** Frames passed on to the coordinator: in wire order, never a Failed, and a Completed only as the last one. */
  ghost predicate ForwardLegal(ms: seq<WorkerMsg>) {
    && (forall i :: 0 <= i < |ms| ==> ms[i].state != Failed)
    && (forall i :: 0 <= i < |ms| - 1 ==> ms[i].state != Completed)
  }

  ghost predicate EndsCompleted(ms: seq<WorkerMsg>) {
    ms != [] && ms[|ms| - 1].state == Completed
  }

  lemma ForwardOne(ms: seq<WorkerMsg>, m: WorkerMsg)
    requires ForwardLegal(ms) && !EndsCompleted(ms) && m.state != Failed
    ensures ForwardLegal(ms + [m]) && (EndsCompleted(ms + [m]) <==> m.state == Completed)
  {
  }

  lemma PutShape(log: seq<WorkerMsg>, m: WorkerMsg, o: Write)
    ensures Put(log, m, o) == log || Put(log, m, o) == log + [m]
  {
  }

  lemma PcUnfinished()
    ensures PcAfter(Unfinished) == RReceiving
  {
  }

  lemma ForwardNone()
    ensures ForwardLegal([]) && !EndsCompleted([])
  {
  }

  lemma ShortConversations(cfg: Config, id: string, o: Write, o2: Write)
    ensures var accepted := Put([], WorkerMsg(id, Accepted, 0, 0, Some(cfg)), o);
      && DownLegal(accepted, cfg) && DownLegal(Put(accepted, Plain("", Rejected), o2), cfg)
      && DownLegal(Put([], Plain("", Rejected), o2), cfg) && DownLegal(Put([], Plain("", Failed), o2), cfg)
  {
    var m := WorkerMsg(id, Accepted, 0, 0, Some(cfg));
    PutDownLegal([], cfg, m, o);
    PutDownLegal([], cfg, Plain("", Rejected), o2);
    PutDownLegal([], cfg, Plain("", Failed), o2);
    PutDownLegal(Put([], m, o), cfg, Plain("", Rejected), o2);
  }

  /** Turn `i` is the first control message or stop signal. */
  ghost predicate DecidedAt(turns: seq<Turn>, i: int) {
    && 0 <= i < |turns| && (turns[i].Ctrl? || turns[i].StopSignal?)
    && forall j :: 0 <= j < i ==> !turns[j].Ctrl? && !turns[j].StopSignal?
  }

  /** How many of the first `n` turns are reads. */
  function Reads(turns: seq<Turn>, n: nat): (r: nat)
    requires n <= |turns|
    ensures r <= n
  {
    if n == 0 then 0 else Reads(turns, n - 1) + if turns[n - 1].Readable? then 1 else 0
  }

  /** Turn `i` drops a control message, or reads a frame that is neither the last report nor a failure. */
  ghost predicate Harmless(turns: seq<Turn>, frames: seq<WorkerMsg>, i: nat)
    requires i < |turns|
  {
    || (turns[i].Ctrl? && turns[i].state != Failed)
    || (turns[i].Readable? && Reads(turns, i) < |frames| && frames[Reads(turns, i)].state !in {Failed, Completed})
  }

  ghost predicate HarmlessUpTo(turns: seq<Turn>, frames: seq<WorkerMsg>, n: nat)
    requires n <= |turns|
  {
    forall i: nat :: i < n ==> Harmless(turns, frames, i)
  }

  /** Turn `n` is the first that is not harmless. */
  ghost predicate StopsAt(turns: seq<Turn>, frames: seq<WorkerMsg>, n: nat) {
    n < |turns| && HarmlessUpTo(turns, frames, n) && !Harmless(turns, frames, n)
  }

  /** Turn `n` reads the worker's Completed, and all turns before it are harmless. */
  ghost predicate CompletesAt(turns: seq<Turn>, frames: seq<WorkerMsg>, n: nat) {
    && n < |turns| && HarmlessUpTo(turns, frames, n)
    && turns[n].Readable? && Reads(turns, n) < |frames| && frames[Reads(turns, n)].state == Completed
  }

  lemma {:induction false} ReadsBounded(turns: seq<Turn>, frames: seq<WorkerMsg>, n: nat)
    requires n <= |turns| && HarmlessUpTo(turns, frames, n)
    ensures Reads(turns, n) <= |frames|
  {
    if n > 0 {
      ReadsBounded(turns, frames, n - 1);
      assert Harmless(turns, frames, n - 1);
    }
  }

  lemma OneStop(turns: seq<Turn>, frames: seq<WorkerMsg>, m: nat, n: nat)
    requires StopsAt(turns, frames, m)
    ensures StopsAt(turns, frames, n) <==> n == m
    ensures CompletesAt(turns, frames, n) <==> n == m && CompletesAt(turns, frames, m)
    ensures n <= |turns| ==> (HarmlessUpTo(turns, frames, n) <==> n <= m)
  {
  }

  /** The first `k` frames. */
  function Taken(frames: seq<WorkerMsg>, k: nat): seq<WorkerMsg> {
    if k <= |frames| then frames[..k] else frames
  }

  /** What has been passed on: all frames read before the first turn that is not harmless, and a Completed read then. */
  ghost predicate Forwards(turns: seq<Turn>, frames: seq<WorkerMsg>, passed: seq<WorkerMsg>) {
    && (HarmlessUpTo(turns, frames, |turns|) ==> passed == Taken(frames, Reads(turns, |turns|)))
    && forall n: nat :: StopsAt(turns, frames, n) ==>
         passed == Taken(frames, Reads(turns, n) + if CompletesAt(turns, frames, n) then 1 else 0)
  }

  /** The loop goes on after turn `n`, or it ends there. */
  ghost predicate LoopState(turns: seq<Turn>, frames: seq<WorkerMsg>, i: nat, exit: Exit, passed: seq<WorkerMsg>) {
    if exit.Unfinished? then
      i <= |turns| && HarmlessUpTo(turns, frames, i) && Reads(turns, i) <= |frames| && passed == frames[..Reads(turns, i)]
    else
      && i > 0 && StopsAt(turns, frames, i - 1)
      && (exit.Clean? <==> CompletesAt(turns, frames, i - 1))
      && passed == Taken(frames, Reads(turns, i - 1) + if exit.Clean? then 1 else 0)
  }

  lemma LoopEnds(turns: seq<Turn>, frames: seq<WorkerMsg>, i: nat, exit: Exit, passed: seq<WorkerMsg>)
    requires LoopState(turns, frames, i, exit, passed) && (exit.Unfinished? ==> i == |turns|)
    ensures Forwards(turns, frames, passed)
    ensures exit.Unfinished? <==> HarmlessUpTo(turns, frames, |turns|)
    ensures exit.Clean? <==> exists n: nat :: CompletesAt(turns, frames, n)
    ensures forall n: nat :: StopsAt(turns, frames, n) ==> n == i - 1 && !exit.Unfinished?
    ensures exit.Clean? ==> !turns[i - 1].Ctrl?
    ensures passed <= frames
  {
    if exit.Unfinished? {
      forall n: nat ensures !StopsAt(turns, frames, n) && !CompletesAt(turns, frames, n) {
        if n < |turns| {
          assert Harmless(turns, frames, n);
        }
      }
    } else {
      forall n: nat
        ensures StopsAt(turns, frames, n) <==> n == i - 1
        ensures CompletesAt(turns, frames, n) <==> n == i - 1 && CompletesAt(turns, frames, i - 1)
        ensures HarmlessUpTo(turns, frames, |turns|) <==> |turns| <= i - 1
      {
        OneStop(turns, frames, i - 1, n);
        OneStop(turns, frames, i - 1, |turns|);
      }
    }
  }

  lemma LoopBegins(turns: seq<Turn>, frames: seq<WorkerMsg>)
    ensures LoopState(turns, frames, 0, Unfinished, [])
  {
  }

  /** How one turn ends the loop, or does not, when `rest` has still to be read. */
  ghost predicate Outcome(turn: Turn, rest: seq<WorkerMsg>, exit: Exit) {
    match turn
    case Ctrl(state, _) => exit == if state == Failed then WithError else Unfinished
    case Readable =>
      exit == if rest == [] || rest[0].state == Failed then WithError
              else if rest[0].state == Completed then Clean else Unfinished
    case _ => exit == WithError
  }

  /** What one turn passes on. */
  function Gains(turn: Turn, rest: seq<WorkerMsg>): seq<WorkerMsg> {
    if turn.Readable? && rest != [] && rest[0].state != Failed then [rest[0]] else []
  }

  function PcAfter(exit: Exit): RemotePc {
    match exit
    case Clean => RExiting(true)
    case WithError => RExiting(false)
    case Unfinished => RReceiving
  }

  lemma NextFrame(frames: seq<WorkerMsg>, passed: seq<WorkerMsg>, rest: seq<WorkerMsg>)
    requires frames == passed + rest
    ensures |passed| <= |frames| && frames[..|passed|] == passed && (rest == [] <==> |passed| == |frames|)
    ensures rest != [] ==> frames[|passed|] == rest[0] && frames[..|passed| + 1] == passed + [rest[0]]
  {
  }

  /** One turn of the loop, seen from outside; `rest` has still to be read. */
  lemma LoopTurns(turns: seq<Turn>, frames: seq<WorkerMsg>, rest: seq<WorkerMsg>, i: nat, exit: Exit, passed: seq<WorkerMsg>)
    requires i < |turns| && LoopState(turns, frames, i, Unfinished, passed) && frames == passed + rest
    requires Outcome(turns[i], rest, exit)
    ensures LoopState(turns, frames, i + 1, exit, passed + Gains(turns[i], rest))
  {
    NextFrame(frames, passed, rest);
    assert |passed| == Reads(turns, i);
    hide HarmlessUpTo, Reads;
    assert Reads(turns, i + 1) == Reads(turns, i) + if turns[i].Readable? then 1 else 0 by {
      ReadsNext(turns, i);
    }
    assert passed + [] == passed;
    if exit.Unfinished? {
      HarmlessNext(turns, frames, i);
    }
  }

  lemma ReadsNext(turns: seq<Turn>, i: nat)
    requires i < |turns|
    ensures Reads(turns, i + 1) == Reads(turns, i) + if turns[i].Readable? then 1 else 0
  {
  }

  lemma HarmlessNext(turns: seq<Turn>, frames: seq<WorkerMsg>, i: nat)
    requires i < |turns| && HarmlessUpTo(turns, frames, i) && Harmless(turns, frames, i)
    ensures HarmlessUpTo(turns, frames, i + 1)
  {
    hide Harmless;
  }

  /** The worker gets as far as being told to start. */
  ghost predicate Begins(arrives: bool, frames: seq<WorkerMsg>, answer: Option<bool>, o: Write, waiting: seq<Turn>) {
    && arrives && frames != [] && frames[0].id != "" && answer == Some(true) && o == Sent
    && exists i :: DecidedAt(waiting, i) && waiting[i].Ctrl? && waiting[i].state == Testing
  }

  // ------------------------------------------------------------ what the event loop does, as steps of the connection

  /** The coordinator's answer arrives, and what follows from it is written. */
  lemma Answer(cfg: Config, s: Side, t: Side, ok: bool, o: Write, o2: Write)
    requires RemoteLeads(cfg, s, t) && t.k.r == RRegistering && t.k.upRead <= |t.k.up| && t.k.downRead <= |t.k.down|
    ensures RemoteLeads(cfg, s, t.(k := DoAnswered(cfg, t.k.(registered := Some(ok)), o, o2)))
  {
    hide RemoteLeads, RemoteMoves;
    var u := t.(k := t.k.(registered := Some(ok)));
    RemoteThen(cfg, s, t, u);
    RemoteDoes(cfg, s, u, Answered(o, o2));
  }

  /** A control message arrives and is taken. */
  lemma Obey(cfg: Config, s: Side, t: Side, state: WorkerState, o: Write)
    requires RemoteLeads(cfg, s, t) && t.k.r in {RWaitStart, RReceiving} && t.k.ctrl == []
    requires t.k.upRead <= |t.k.up| && t.k.downRead <= |t.k.down|
    ensures RemoteLeads(cfg, s, t.(k := DoCtrl(t.k.(ctrl := [state]), o)))
  {
    hide RemoteLeads, RemoteMoves;
    var u := t.(k := t.k.(ctrl := [state]));
    RemoteThen(cfg, s, t, u);
    RemoteDoes(cfg, s, u, TakeCtrl(o));
  }

  lemma Halt(cfg: Config, s: Side, t: Side)
    requires RemoteLeads(cfg, s, t) && t.k.r in {RWaitStart, RReceiving}
    requires t.k.upRead <= |t.k.up| && t.k.downRead <= |t.k.down|
    ensures RemoteLeads(cfg, s, t.(k := t.k.(stopped := true, r := RExiting(false))))
  {
    hide RemoteLeads, RemoteMoves;
    var u := t.(k := t.k.(stopped := true));
    RemoteThen(cfg, s, t, u);
    RemoteDoes(cfg, s, u, Connection.Stopped);
  }

  lemma PassOn(cfg: Config, s: Side, t: Side)
    requires RemoteLeads(cfg, s, t) && CanForward(t.k)
    ensures RemoteLeads(cfg, s, Side(DoForward(t.k), t.passed + [t.k.up[t.k.upRead]]))
  {
    hide RemoteLeads;
    RemoteThen(cfg, s, t, Side(DoForward(t.k), t.passed + [t.k.up[t.k.upRead]]));
  }

  lemma Identify(cfg: Config, s: Side, t: Side)
    requires RemoteLeads(cfg, s, t) && CanTakeId(t.k)
    ensures RemoteLeads(cfg, s, t.(k := TakeId(t.k)))
  {
    hide RemoteLeads;
    RemoteThen(cfg, s, t, t.(k := TakeId(t.k)));
  }

  class RemoteWorker {
    const cfg: Config                    // what the coordinator hands out
    var id: string
    var txCount: nat
    var inbound: seq<WorkerMsg>          // frames of the peer that have not been read
    ghost var sent: seq<WorkerMsg>       // frames put on the wire to the peer
    ghost var forwarded: seq<WorkerMsg>  // updates handed to the coordinator
    ghost var side: Side                 // the same connection as a state of the protocol
    ghost const start: Side              // that state before anything has happened

    /** The object's state is that of the protocol's connection, and its steps so far were steps of the protocol. */
    ghost predicate Mirrors()
      reads this
    {
      && side.k.rid == id && side.k.down == sent && side.passed == forwarded
      && side.k.upRead <= |side.k.up| && side.k.up[side.k.upRead..] == inbound
      && side.k.downRead == 0 && side.k.ctrl == []
      && RemoteLeads(cfg, start, side)
    }

    constructor (cfg: Config, ghost wid: string, inbound: seq<WorkerMsg>)
      ensures this.cfg == cfg && this.inbound == inbound && id == "" && sent == [] && forwarded == []
      ensures start == Side(Open(wid), []) && side == Side(Open(wid).(up := inbound), []) && Mirrors()
    {
      this.cfg, this.inbound, id, txCount := cfg, inbound, "", 0;
      sent, forwarded := [], [];
      start, side := Side(Open(wid), []), Side(Open(wid).(up := inbound), []);
      new;
      RemoteStays(cfg, start);
      RemoteThen(cfg, start, start, side);
    }

    method WriteWorkerMsg(m: WorkerMsg, o: Write) returns (ok: bool)
      modifies this`sent
      ensures ok <==> o == Sent
      ensures sent == Put(old(sent), m, o)
    {
      sent := Put(sent, m, o);
      return o == Sent;
    }

    method ReadID(arrives: bool) returns (ok: bool)
      requires Mirrors() && side.k.r == RReadId
      modifies this`id, this`inbound, this`side
      ensures Mirrors()
      ensures ok <==> arrives && old(inbound) != [] && old(inbound)[0].id != ""
      ensures ok ==> id == old(inbound)[0].id && inbound == old(inbound)[1..] && side.k.r == RRegistering
      ensures !ok ==> id == old(id) && side.k.r == RReadId
    {
      hide RemoteLeads;
      if !arrives || inbound == [] {
        return false;
      }
      var msg := inbound[0];
      inbound := inbound[1..];
      assert side.k.up[side.k.upRead] == msg && side.k.up[side.k.upRead..][1..] == side.k.up[side.k.upRead + 1..];
      if msg.id == "" {
        RemoteDoes(cfg, start, side, DropUp);
        side := side.(k := Do(cfg, side.k, DropUp));
        return false;
      }
      id := msg.id;
      Identify(cfg, start, side);
      side := side.(k := TakeId(side.k));
      return true;
    }

    /**
     * `answer` is what the coordinator replied in time, if anything. `o2` is the fate of the Rejected that follows in
     * every case but success.
     */
    method Register(answer: Option<bool>, o: Write, o2: Write) returns (ok: bool)
      requires Mirrors() && side.k.r == RRegistering
      modifies this`sent, this`side
      ensures Mirrors()
      ensures ok <==> answer == Some(true) && o == Sent
      ensures side.k.r == if ok then RWaitStart else RExiting(false)
      ensures var accepted := if answer == Some(true) then Put(old(sent), WorkerMsg(id, Accepted, 0, 0, Some(cfg)), o) else old(sent);
        sent == if ok then accepted else Put(accepted, Plain("", Rejected), o2)
    {
      hide RemoteLeads;
      ok := false;
      if answer == Some(true) {
        ok := WriteWorkerMsg(WorkerMsg(id, Accepted, 0, 0, Some(cfg)), o);
      }
      if !ok {
        var _ := WriteWorkerMsg(Plain("", Rejected), o2);
      }
      if answer.None? {
        RemoteDoes(cfg, start, side, RegisterTimeout(o2));
        side := side.(k := Reject(side.k, o2));
      } else {
        var first := if answer.value then o else o2;
        Answer(cfg, start, side, answer.value, first, o2);
        side := side.(k := DoAnswered(cfg, side.k.(registered := answer), first, o2));
      }
    }

    /** The first control message or stop signal decides: the event loop goes on exactly when that is a Testing. */
    method WaitForStart(turns: seq<Turn>) returns (exit: Exit)
      requires Mirrors() && side.k.r == RWaitStart
      modifies this`sent, this`side
      ensures Mirrors()
      ensures exit.Unfinished? <==> forall i :: 0 <= i < |turns| ==> !DecidedAt(turns, i)
      ensures exit.Clean? <==> exists i :: DecidedAt(turns, i) && turns[i].Ctrl? && turns[i].state == Testing
      ensures forall i :: DecidedAt(turns, i) && turns[i].Ctrl? ==>
                            sent == Put(old(sent), Plain(id, turns[i].state), turns[i].o)
      ensures (forall i :: DecidedAt(turns, i) ==> turns[i].StopSignal?) ==> sent == old(sent)
      ensures side.k.r == match exit
                          case Clean => RReceiving
                          case WithError => RExiting(false)
                          case Unfinished => RWaitStart
    {
      hide RemoteLeads;
      var i := 0;
      while i < |turns|
        invariant 0 <= i <= |turns| && sent == old(sent) && side == old(side)
        invariant forall j :: 0 <= j < i ==> !turns[j].Ctrl? && !turns[j].StopSignal?
      {
        match turns[i] {
          case Ctrl(state, o) =>
            assert DecidedAt(turns, i);
            var _ := WriteWorkerMsg(Plain(id, state), o);
            Obey(cfg, start, side, state, o);
            side := side.(k := DoCtrl(side.k.(ctrl := [state]), o));
            return if state == Testing then Clean else WithError;
          case StopSignal =>
            assert DecidedAt(turns, i);
            Halt(cfg, start, side);
            side := side.(k := side.k.(stopped := true, r := RExiting(false)));
            return WithError;
          case _ =>
        }
        i := i + 1;
      }
      return Unfinished;
    }

    /** One successful read. A Failed ends the loop with an error, a Completed without one. */
    method Receive() returns (exit: Exit)
      requires Mirrors() && side.k.r == RReceiving && inbound != []
      requires ForwardLegal(forwarded) && !EndsCompleted(forwarded)
      modifies this`inbound, this`forwarded, this`txCount, this`side
      ensures Mirrors() && inbound == old(inbound)[1..]
      ensures exit == match old(inbound)[0].state
                      case Failed => WithError
                      case Completed => Clean
                      case _ => Unfinished
      ensures forwarded == if exit.WithError? then old(forwarded) else old(forwarded) + [old(inbound)[0]]
      ensures txCount == if exit.WithError? then old(txCount) else old(inbound)[0].txCount
      ensures ForwardLegal(forwarded) && (exit.Clean? <==> EndsCompleted(forwarded))
      ensures side.k.r == PcAfter(exit)
    {
      hide RemoteLeads, ForwardLegal, EndsCompleted;
      var msg := inbound[0];
      inbound := inbound[1..];
      assert side.k.up[side.k.upRead] == msg && side.k.up[side.k.upRead..][1..] == side.k.up[side.k.upRead + 1..];
      if msg.state == Failed {
        RemoteDoes(cfg, start, side, ReadFailed);
        side := side.(k := Do(cfg, side.k, ReadFailed));
        return WithError;
      }
      ForwardOne(forwarded, msg);
      txCount := msg.txCount;
      forwarded := forwarded + [msg];
      PassOn(cfg, start, side);
      side := Side(DoForward(side.k), side.passed + [msg]);
      return if msg.state == Completed then Clean else Unfinished;
    }

    /** A control message other than Failed is dropped; Failed is passed to the peer and ends the loop. */
    method TakeControl(state: WorkerState, o: Write) returns (exit: Exit)
      requires Mirrors() && side.k.r == RReceiving
      modifies this`sent, this`side
      ensures Mirrors() && exit == if state == Failed then WithError else Unfinished
      ensures sent == if state == Failed then Put(old(sent), Plain(id, Failed), o) else old(sent)
      ensures side.k.r == if state == Failed then RExiting(false) else RReceiving
    {
      hide RemoteLeads;
      Obey(cfg, start, side, state, o);
      side := side.(k := DoCtrl(side.k.(ctrl := [state]), o));
      if state == Failed {
        var _ := WriteWorkerMsg(Plain(id, Failed), o);
        return WithError;
      }
      return Unfinished;
    }

    method Leave(stopSignal: bool)
      requires Mirrors() && side.k.r == RReceiving
      modifies this`side
      ensures Mirrors() && side.k.r == RExiting(false)
    {
      hide RemoteLeads;
      if stopSignal {
        Halt(cfg, start, side);
        side := side.(k := side.k.(stopped := true, r := RExiting(false)));
      } else {
        RemoteDoes(cfg, start, side, ReadError);
        side := side.(k := Do(cfg, side.k, ReadError));
      }
    }

    /** The transaction count is that of the last report passed on. */
    ghost predicate Counted()
      reads this
    {
      forwarded != [] ==> txCount == forwarded[|forwarded| - 1].txCount
    }

    /** One turn of the loop. */
    method TakeTurn(turn: Turn) returns (exit: Exit)
      requires Mirrors() && side.k.r == RReceiving && ForwardLegal(forwarded) && !EndsCompleted(forwarded) && Counted()
      modifies this`sent, this`inbound, this`forwarded, this`txCount, this`side
      ensures Mirrors() && side.k.r == PcAfter(exit)
      ensures Outcome(turn, old(inbound), exit) && forwarded == old(forwarded) + Gains(turn, old(inbound))
      ensures exit.Unfinished? ==> forwarded + inbound == old(forwarded + inbound)
      ensures ForwardLegal(forwarded) && (exit.Clean? <==> EndsCompleted(forwarded))
      ensures Counted()
      ensures sent == if turn.Ctrl? && exit.WithError? then Put(old(sent), Plain(id, Failed), turn.o) else old(sent)
    {
      hide Mirrors, ForwardLegal, EndsCompleted, Put;
      match turn {
        case Ctrl(state, o) =>
          exit := TakeControl(state, o);
        case Readable =>
          if inbound == [] {
            Leave(false);
            exit := WithError;
          } else {
            exit := Receive();
          }
        case Unreadable =>
          Leave(false);
          exit := WithError;
        case StopSignal =>
          Leave(true);
          exit := WithError;
      }
    }

    /**
     * Passes frames on in the order in which they are read. It ends without an error exactly when the last one passed
     * on is a Completed; and only a Failed control message makes it write anything.
     */
    method ReceiveTestingUpdates(turns: seq<Turn>) returns (exit: Exit)
      requires Mirrors() && side.k.r == RReceiving && forwarded == []
      modifies this`sent, this`inbound, this`forwarded, this`txCount, this`side
      ensures Mirrors()
      ensures Forwards(turns, old(inbound), forwarded)
      ensures exit.Unfinished? <==> HarmlessUpTo(turns, old(inbound), |turns|)
      ensures exit.Clean? <==> exists n: nat :: CompletesAt(turns, old(inbound), n)
      ensures forwarded <= old(inbound) && ForwardLegal(forwarded)
      ensures exit.Clean? <==> EndsCompleted(forwarded)
      ensures forwarded != [] ==> txCount == forwarded[|forwarded| - 1].txCount
      ensures exit.Unfinished? ==> sent == old(sent)
      ensures sent == old(sent) || (exit.WithError? && sent == old(sent) + [Plain(id, Failed)])
      ensures forall n: nat :: StopsAt(turns, old(inbound), n) ==>
                sent == if turns[n].Ctrl? then Put(old(sent), Plain(id, Failed), turns[n].o) else old(sent)
      ensures side.k.r == PcAfter(exit)
    {
      hide ForwardLegal, EndsCompleted, Mirrors, LoopState, Forwards, HarmlessUpTo, CompletesAt, StopsAt, Put, Gains;
      ghost var frames := inbound;
      ghost var n;
      exit, n := TakeTurns(turns);
      LoopEnds(turns, frames, n, exit, forwarded);
      PutShape(old(sent), Plain(id, Failed), if n > 0 && turns[n - 1].Ctrl? then turns[n - 1].o else Lost);
    }

    /** The loop itself; `n` is the number of turns it has taken. */
    method TakeTurns(turns: seq<Turn>) returns (exit: Exit, ghost n: nat)
      requires Mirrors() && side.k.r == RReceiving && forwarded == []
      modifies this`sent, this`inbound, this`forwarded, this`txCount, this`side
      ensures Mirrors() && side.k.r == PcAfter(exit)
      ensures n <= |turns| && (exit.Unfinished? ==> n == |turns|) && (!exit.Unfinished? ==> n > 0)
      ensures LoopState(turns, old(inbound), n, exit, forwarded)
      ensures ForwardLegal(forwarded) && (exit.Clean? <==> EndsCompleted(forwarded))
      ensures Counted()
      ensures sent == if exit.WithError? && turns[n - 1].Ctrl? then Put(old(sent), Plain(id, Failed), turns[n - 1].o) else old(sent)
    {
      assert Counted();
      hide ForwardLegal, EndsCompleted, Mirrors, LoopState, Outcome, Put, Reads, PcAfter, Gains, Counted;
      ForwardNone();
      ghost var frames := inbound;
      LoopBegins(turns, frames);
      PcUnfinished();
      exit := Unfinished;
      var i := 0;
      while i < |turns| && exit.Unfinished?
        invariant 0 <= i <= |turns| && Mirrors() && side.k.r == PcAfter(exit)
        invariant LoopState(turns, frames, i, exit, forwarded)
        invariant exit.Unfinished? ==> frames == forwarded + inbound
        invariant ForwardLegal(forwarded) && (exit.Clean? <==> EndsCompleted(forwarded))
        invariant Counted()
        invariant !exit.Unfinished? ==> i > 0
        invariant sent == if exit.WithError? && turns[i - 1].Ctrl? then Put(old(sent), Plain(id, Failed), turns[i - 1].o) else old(sent)
      {
        ghost var passed := forwarded;
        ghost var rest := inbound;
        exit := TakeTurn(turns[i]);
        LoopTurns(turns, frames, rest, i, exit, passed);
        i := i + 1;
      }
      n := i;
    }

    /** Learning the ID and being admitted. In every case but success the peer is told, as the last thing. */
    method Enter(arrives: bool, answer: Option<bool>, o1: Write, o2: Write) returns (ok: bool)
      requires Mirrors() && side.k.r == RReadId && sent == []
      modifies this`id, this`inbound, this`sent, this`side
      ensures Mirrors() && DownLegal(sent, cfg)
      ensures side.k.r == if ok then RWaitStart else RExiting(false)
      ensures ok <==> arrives && old(inbound) != [] && old(inbound)[0].id != "" && answer == Some(true) && o1 == Sent
      ensures ok ==> sent == [WorkerMsg(id, Accepted, 0, 0, Some(cfg))]
      ensures ok ==> old(inbound) != [] && id == old(inbound)[0].id != "" && inbound == old(inbound)[1..]
    {
      hide Mirrors, DownLegal;
      ok := ReadID(arrives);
      if ok {
        ShortConversations(cfg, id, o1, o2);
        ok := Register(answer, o1, o2);
      } else {
        Refuse(o1);
        ShortConversations(cfg, id, Lost, o1);
      }
    }

    /** Without an ID the peer is told so, and that is all. */
    method Refuse(o: Write)
      requires Mirrors() && side.k.r == RReadId
      modifies this`sent, this`side
      ensures Mirrors() && side.k.r == RExiting(false)
      ensures sent == Put(old(sent), Plain("", Failed), o)
    {
      hide RemoteLeads;
      var _ := WriteWorkerMsg(Plain("", Failed), o);
      RemoteDoes(cfg, start, side, NoId(o));
      side := side.(k := Do(cfg, side.k, NoId(o)));
    }

    /** The first control message fits what has been written so far. */
    lemma Started(turns: seq<Turn>, before: seq<WorkerMsg>, after: seq<WorkerMsg>)
      requires forall i :: 0 <= i < |turns| && turns[i].Ctrl? ==> turns[i].state in {Testing, Failed}
      requires |before| == 1 && DownLegal(before, cfg) && before[0].state == Accepted
      requires forall i :: DecidedAt(turns, i) && turns[i].Ctrl? ==> after == Put(before, Plain(id, turns[i].state), turns[i].o)
      requires (forall i :: DecidedAt(turns, i) ==> turns[i].StopSignal?) ==> after == before
      ensures DownLegal(after, cfg) && before <= after
      ensures (exists i :: DecidedAt(turns, i) && turns[i].Ctrl? && turns[i].state == Testing) ==>
                DownLegal(after + [Plain(id, Failed)], cfg)
    {
      if i :| DecidedAt(turns, i) && turns[i].Ctrl? {
        PutDownLegal(before, cfg, Plain(id, turns[i].state), turns[i].o);
        if j :| DecidedAt(turns, j) && turns[j].Ctrl? && turns[j].state == Testing {
          assert i == j;
          assert after + [Plain(id, Failed)] == Put(after, Plain(id, Failed), Sent);
          PutDownLegal(after, cfg, Plain(id, Failed), Sent);
        }
      }
    }

    /**
     * The whole event loop. What it writes, reads and passes on is the work of a remoteWorker of the protocol. `exit`
     * is what the deferred unregister request reports: it carries no error exactly when a Completed report has been
     * handed to the coordinator. Control messages are Testing or Failed, as `StartLoadTest` and `Fail` send them.
     */
    method EventLoop(arrives: bool, answer: Option<bool>, waiting: seq<Turn>, receiving: seq<Turn>,
                     o1: Write, o2: Write) returns (exit: Exit)
      requires Mirrors() && side.k.r == RReadId && sent == [] && forwarded == []
      requires forall i :: 0 <= i < |waiting| && waiting[i].Ctrl? ==> waiting[i].state in {Testing, Failed}
      modifies this
      ensures Mirrors()
      ensures exit.Clean? ==> side.k.r == RExiting(true)
      ensures exit.WithError? ==> side.k.r == RExiting(false)
      ensures exit.Unfinished? ==> side.k.r == RWaitStart || side.k.r == RReceiving
      ensures var begins := Begins(arrives, old(inbound), answer, o1, waiting);
        && (exit.Clean? <==> begins && exists n: nat :: CompletesAt(receiving, old(inbound)[1..], n))
        && (begins ==> Forwards(receiving, old(inbound)[1..], forwarded)) && (!begins ==> forwarded == [])
      ensures DownLegal(sent, cfg)
      ensures exit.Clean? <==> EndsCompleted(forwarded)
      ensures ForwardLegal(forwarded)
      ensures forwarded != [] ==> old(inbound) != [] && id == old(inbound)[0].id != "" && forwarded <= old(inbound)[1..]
      ensures forwarded != [] ==> sent != [] && sent[0].state == Accepted && answer == Some(true)
    {
      hide Mirrors, DownLegal, ForwardLegal, EndsCompleted, DecidedAt, Forwards, CompletesAt, StopsAt, HarmlessUpTo;
      ForwardNone();
      var ok := Enter(arrives, answer, o1, o2);
      if !ok {
        return WithError;
      }
      ghost var accepted := sent;
      exit := WaitForStart(waiting);
      Started(waiting, accepted, sent);
      if exit.Clean? {
        exit := ReceiveTestingUpdates(receiving);
      }
    }
  }
}
