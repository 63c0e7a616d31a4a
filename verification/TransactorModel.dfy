/**
 * The send loop of a transactor as a function of what its environment does: how each transaction of a batch fares,
 * which ticker the `select` picks, and when somebody else cancels. Everything here is a value; `Transactor` is the
 * object that does the work.
 */
module TransactorModel {
  import opened Basics
  import opened LoadConfig

  /** What generating and writing one transaction comes to; `late` says that the send period was then used up. */
  datatype Outcome = GenerateFails | WriteFails | Written(size: nat, late: bool)

  datatype Frame = TxFrame(size: nat) | PingFrame | CloseFrame

  datatype StopError = SendFailed | PingFailed | Cancelled

  datatype Event = SendTick(env: nat -> Outcome) | ProgressTick | PingTick(ok: bool) | TimeLimit

  /** One turn of the loop: the event, whether a cancellation lands during it, and whether a Close frame would get out. */
  datatype Turn = Turn(event: Event, cancel: bool, closeOk: bool)

  datatype State = State(
    txCount: nat,
    txBytes: nat,
    stop: bool,
    stopErr: Option<StopError>,
    closed: bool,
    wire: seq<Frame>,               // every frame written so far
    breaks: nat,                    // batches ended by the deadline break
    reports: seq<(nat, nat)>)       // arguments of the progress callback so far

  const INIT := State(0, 0, false, None, false, [], 0, [])

  // ------------------------------------------------------------ one batch

  datatype Batch = Batch(sent: nat, bytes: nat, frames: seq<Frame>, broke: bool, failed: bool)

  function ToSend(cfg: Config, txCount: nat): int {
    if cfg.count > 0 && txCount + cfg.rate > cfg.count then cfg.count - txCount else cfg.rate
  }

  /** The rest of a batch from transaction `i` on. The deadline break leaves before the counter is incremented. */
  function RunBatch(env: nat -> Outcome, i: nat, toSend: int): Batch
    decreases toSend - i
  {
    if i >= toSend then Batch(0, 0, [], false, false)
    else match env(i)
      case GenerateFails => Batch(0, 0, [], false, true)
      case WriteFails => Batch(0, 0, [], false, true)
      case Written(size, late) =>
        if late then Batch(0, size, [TxFrame(size)], true, false)
        else
          var rest := RunBatch(env, i + 1, toSend);
          Batch(rest.sent + 1, rest.bytes + size, [TxFrame(size)] + rest.frames, rest.broke, rest.failed)
  }

  /** A batch of which `sent` transactions have gone out before the rest is run. */
  function After(sent: nat, bytes: nat, frames: seq<Frame>, rest: Batch): Batch {
    Batch(sent + rest.sent, bytes + rest.bytes, frames + rest.frames, rest.broke, rest.failed)
  }

  lemma AfterStep(env: nat -> Outcome, toSend: int, sent: nat, bytes: nat, frames: seq<Frame>)
    requires sent < toSend && env(sent).Written?
    ensures var size := env(sent).size;
      var frames' := frames + [TxFrame(size)];
      After(sent, bytes, frames, RunBatch(env, sent, toSend)) ==
        if env(sent).late then Batch(sent, bytes + size, frames', true, false)
        else After(sent + 1, bytes + size, frames', RunBatch(env, sent + 1, toSend))
  {
    var f, rest := [TxFrame(env(sent).size)], RunBatch(env, sent + 1, toSend);
    assert frames + (f + rest.frames) == (frames + f) + rest.frames;
  }

  lemma AfterEnd(env: nat -> Outcome, toSend: int, sent: nat, bytes: nat, frames: seq<Frame>)
    requires sent >= toSend || !env(sent).Written?
    ensures After(sent, bytes, frames, RunBatch(env, sent, toSend)) == Batch(sent, bytes, frames, false, sent < toSend)
  {
  }

  // ------------------------------------------------------------ what a batch sends, in plain terms

  /** The `m`-th transaction is the first of `n` that fails or is late; or all `n` go out in time, and `m` is `n`. */
  ghost predicate EndsAt(env: nat -> Outcome, n: nat, m: nat) {
    && m <= n
    && (forall i: nat :: i < m ==> env(i).Written? && !env(i).late)
    && (m < n ==> !env(m).Written? || env(m).late)
  }

  /** The number of transactions a period is for: the rate, or what is left up to a positive cap if that is less. */
  function Quota(cfg: Config, txCount: nat): nat {
    Max(0, if cfg.count > 0 then Min(cfg.rate, cfg.count - txCount) else cfg.rate)
  }

  function Min(a: int, b: int): int {
    if a <= b then a else b
  }

  function Max(a: int, b: int): int {
    if a <= b then b else a
  }

  /** Transaction `m`, at which the batch ends, still goes out although it is late. */
  predicate GoesOutLate(env: nat -> Outcome, n: nat, m: nat) {
    m < n && env(m).Written?
  }

  predicate FailsAt(env: nat -> Outcome, n: nat, m: nat) {
    m < n && !env(m).Written?
  }

  ghost predicate FramesOf(frames: seq<Frame>, env: nat -> Outcome, from: nat) {
    forall i :: 0 <= i < |frames| ==> env(from + i).Written? && frames[i] == TxFrame(env(from + i).size)
  }

  lemma {:induction false} EndExists(env: nat -> Outcome, n: nat, i: nat) returns (m: nat)
    requires i <= n && forall j: nat :: j < i ==> env(j).Written? && !env(j).late
    ensures EndsAt(env, n, m)
    decreases n - i
  {
    if i < n && env(i).Written? && !env(i).late {
      m := EndExists(env, n, i + 1);
    } else {
      m := i;
    }
  }

  lemma {:induction false} BatchFrom(env: nat -> Outcome, n: nat, m: nat, i: nat)
    requires EndsAt(env, n, m) && i <= m
    ensures var b := RunBatch(env, i, n);
      && b.sent == m - i && b.broke == GoesOutLate(env, n, m) && b.failed == FailsAt(env, n, m)
      && |b.frames| == b.sent + (if b.broke then 1 else 0) && FramesOf(b.frames, env, i)
    decreases m - i
  {
    if i < m {
      BatchFrom(env, n, m, i + 1);
      var rest := RunBatch(env, i + 1, n);
      var frames := [TxFrame(env(i).size)] + rest.frames;
      forall k | 0 <= k < |frames| ensures env(i + k).Written? && frames[k] == TxFrame(env(i + k).size) {
        if k > 0 {
          assert frames[k] == rest.frames[k - 1];
          assert env(i + 1 + (k - 1)).Written?;
        }
      }
    }
  }

  lemma NoQuotaNoBatch(env: nat -> Outcome, toSend: int)
    requires toSend <= 0
    ensures RunBatch(env, 0, toSend) == RunBatch(env, 0, 0)
  {
  }

  // ------------------------------------------------------------ the loop

  function SetStop(s: State, err: Option<StopError>): State {
    s.(stop := true, stopErr := if err.Some? then err else s.stopErr)
  }

  /** What a batch leaves behind; recorded on every way out of it. */
  function RecordBatch(s: State, b: Batch): State {
    s.(txCount := s.txCount + b.sent, txBytes := s.txBytes + b.bytes, wire := s.wire + b.frames,
       breaks := s.breaks + if b.broke then 1 else 0)
  }

  function SendTransactions(cfg: Config, s: State, env: nat -> Outcome): State {
    var b := RunBatch(env, 0, ToSend(cfg, s.txCount));
    if b.failed then SetStop(RecordBatch(s, b), Some(SendFailed)) else RecordBatch(s, b)
  }

  function Handle(cfg: Config, s: State, e: Event): State {
    match e
    case SendTick(env) => SendTransactions(cfg, s, env)
    case ProgressTick => s.(reports := s.reports + [(s.txCount, s.txBytes)])
    case PingTick(ok) => if ok then s.(wire := s.wire + [PingFrame]) else SetStop(s, Some(PingFailed))
    case TimeLimit => SetStop(s, None)
  }

  function CheckCap(cfg: Config, s: State): State {
    if cfg.count > 0 && s.txCount >= cfg.count then SetStop(s, None) else s
  }

  function Close(s: State, ok: bool): State {
    s.(closed := true, wire := if ok then s.wire + [CloseFrame] else s.wire)
  }

  function Iterate(cfg: Config, s: State, t: Turn): State {
    var s1 := Handle(cfg, CheckCap(cfg, s), t.event);
    var s2 := if t.cancel then SetStop(s1, Some(Cancelled)) else s1;
    if s2.stop then Close(s2, t.closeOk) else s2
  }

  /** The loop over a finite prefix of its environment: it takes turns until it has closed the connection. */
  function SendLoop(cfg: Config, s: State, turns: seq<Turn>): State
    decreases |turns|
  {
    if s.closed || turns == [] then s else SendLoop(cfg, Iterate(cfg, s, turns[0]), turns[1..])
  }

  lemma LoopStep(cfg: Config, s: State, turns: seq<Turn>)
    ensures !s.closed && turns != [] ==>
              SendLoop(cfg, s, turns) == SendLoop(cfg, Iterate(cfg, s, turns[0]), turns[1..])
    ensures s.closed || turns == [] ==> SendLoop(cfg, s, turns) == s
  {
  }

  /**
   * A batch, exactly. It is for `rate` transactions, or for what is left up to the cap if that is less. It records those
   * before the first that fails or is late, puts these and a late one on the wire, and sets the stop flag with an error
   * if and only if the batch ended with a failure.
   */
  lemma BatchExactly(cfg: Config, s: State, env: nat -> Outcome, m: nat)
    requires EndsAt(env, Quota(cfg, s.txCount), m)
    ensures var n, r := Quota(cfg, s.txCount), SendTransactions(cfg, s, env);
      && r.txCount == s.txCount + m
      && s.wire <= r.wire && |r.wire| == |s.wire| + m + (if GoesOutLate(env, n, m) then 1 else 0)
      && FramesOf(r.wire[|s.wire|..], env, 0)
      && (r.stop <==> s.stop || FailsAt(env, n, m))
      && r.stopErr == (if FailsAt(env, n, m) then Some(SendFailed) else s.stopErr)
      && r.closed == s.closed && r.reports == s.reports
  {
    var n, toSend := Quota(cfg, s.txCount), ToSend(cfg, s.txCount);
    if toSend <= 0 {
      NoQuotaNoBatch(env, toSend);
    }
    BatchFrom(env, n, m, 0);
    var b := RunBatch(env, 0, toSend);
    assert (s.wire + b.frames)[|s.wire|..] == b.frames;
  }

  /** A batch in which nothing fails or is late sends the rate, or what is left up to the cap. */
  lemma PunctualBatchIsFull(cfg: Config, s: State, env: nat -> Outcome)
    requires forall i: nat :: i < Quota(cfg, s.txCount) ==> env(i).Written? && !env(i).late
    ensures var r := SendTransactions(cfg, s, env);
      && r.txCount == s.txCount + Quota(cfg, s.txCount) && |r.wire| == |s.wire| + Quota(cfg, s.txCount)
      && r.stop == s.stop && r.stopErr == s.stopErr
  {
    BatchExactly(cfg, s, env, Quota(cfg, s.txCount));
  }

  ghost predicate BatchFails(cfg: Config, txCount: nat, env: nat -> Outcome) {
    exists m: nat :: EndsAt(env, Quota(cfg, txCount), m) && FailsAt(env, Quota(cfg, txCount), m)
  }

  lemma SendStopsExactly(cfg: Config, s: State, env: nat -> Outcome)
    ensures var r := SendTransactions(cfg, s, env);
      && (r.stop <==> s.stop || BatchFails(cfg, s.txCount, env))
      && (r.stopErr == if BatchFails(cfg, s.txCount, env) then Some(SendFailed) else s.stopErr)
  {
    var m := EndExists(env, Quota(cfg, s.txCount), 0);
    BatchExactly(cfg, s, env, m);
    if BatchFails(cfg, s.txCount, env) {
      var k: nat :| EndsAt(env, Quota(cfg, s.txCount), k) && FailsAt(env, Quota(cfg, s.txCount), k);
      assert k == m by {
        OneEnd(env, Quota(cfg, s.txCount), k, m);
      }
    }
  }

  lemma OneEnd(env: nat -> Outcome, n: nat, k: nat, m: nat)
    requires EndsAt(env, n, k) && EndsAt(env, n, m)
    ensures k == m
  {
  }

  /** What can stop a loop: its cap, its time limit, a failed batch, a failed ping, and somebody else. */
  ghost predicate Stops(cfg: Config, s: State, t: Turn) {
    || (cfg.count > 0 && s.txCount >= cfg.count)
    || t.event.TimeLimit? || (t.event.PingTick? && !t.event.ok)
    || (t.event.SendTick? && BatchFails(cfg, s.txCount, t.event.env))
    || t.cancel
  }

  /** With which error a turn leaves the loop. */
  ghost function ErrorAfter(cfg: Config, s: State, t: Turn): Option<StopError> {
    if t.cancel then Some(Cancelled)
    else if t.event.PingTick? && !t.event.ok then Some(PingFailed)
    else if t.event.SendTick? && BatchFails(cfg, s.txCount, t.event.env) then Some(SendFailed)
    else s.stopErr
  }

  /**
   * One turn, exactly: the connection is closed at its end if and only if the loop had been told to stop or something
   * stops it in this turn; a progress tick reports the current statistics, and a ping that gets out is on the wire.
   */
  lemma TurnStopsExactly(cfg: Config, s: State, t: Turn)
    requires !s.closed
    ensures var r := Iterate(cfg, s, t);
      && (r.stop <==> s.stop || Stops(cfg, s, t)) && (r.closed <==> r.stop)
      && r.stopErr == ErrorAfter(cfg, s, t)
      && (t.event.ProgressTick? ==> r.reports == s.reports + [(s.txCount, s.txBytes)])
      && (!t.event.SendTick? ==>
            && r.txCount == s.txCount && r.txBytes == s.txBytes
            && r.wire == s.wire + (if t.event == PingTick(true) then [PingFrame] else [])
                         + (if r.closed && t.closeOk then [CloseFrame] else []))
  {
    var s0 := CheckCap(cfg, s);
    if t.event.SendTick? {
      SendStopsExactly(cfg, s0, t.event.env);
      hide BatchFails, RunBatch, ToSend;
    }
    assert s.wire + [] == s.wire;
  }

  // ------------------------------------------------------------ accounting

  function TxFrames(w: seq<Frame>): nat {
    if w == [] then 0 else (if w[0].TxFrame? then 1 else 0) + TxFrames(w[1..])
  }

  function TxFrameBytes(w: seq<Frame>): nat {
    if w == [] then 0 else (if w[0].TxFrame? then w[0].size else 0) + TxFrameBytes(w[1..])
  }

  lemma {:induction false} TxFramesConcat(v: seq<Frame>, w: seq<Frame>)
    ensures TxFrames(v + w) == TxFrames(v) + TxFrames(w)
    ensures TxFrameBytes(v + w) == TxFrameBytes(v) + TxFrameBytes(w)
  {
    if v == [] {
      assert v + w == w;
    } else {
      assert (v + w)[1..] == v[1..] + w;
      TxFramesConcat(v[1..], w);
    }
  }

  lemma {:induction false} BatchAccounting(env: nat -> Outcome, i: nat, toSend: int)
    ensures var b := RunBatch(env, i, toSend);
      && TxFrames(b.frames) == |b.frames| == b.sent + (if b.broke then 1 else 0)
      && b.bytes == TxFrameBytes(b.frames)
      && CloseFrame !in b.frames
      && (i <= toSend ==> i + b.sent <= toSend)
      && (i > toSend ==> b.sent == 0)
      && (b.broke ==> i + b.sent < toSend && !b.failed)
    decreases toSend - i
  {
    if i < toSend && env(i).Written? && !env(i).late {
      BatchAccounting(env, i + 1, toSend);
      var rest := RunBatch(env, i + 1, toSend);
      var f := [TxFrame(env(i).size)];
      assert (f + rest.frames)[1..] == rest.frames;
    }
  }

  /**
   * What holds between any two turns of every run: frames on the wire are recorded transactions plus deadline breaks,
   * recorded bytes are the bytes written, and a Close frame can only be the last frame, once the loop has closed.
   */
  ghost predicate Accounted(s: State) {
    && TxFrames(s.wire) == s.txCount + s.breaks
    && s.txBytes == TxFrameBytes(s.wire)
    && (!s.closed ==> CloseFrame !in s.wire)
    && (forall i :: 0 <= i < |s.wire| - 1 ==> s.wire[i] != CloseFrame)
    && (s.closed ==> s.stop)
    && (forall i :: 0 <= i < |s.reports| ==> s.reports[i].0 <= s.txCount && s.reports[i].1 <= s.txBytes)
    && (forall i, j :: 0 <= i < j < |s.reports| ==> s.reports[i].0 <= s.reports[j].0 && s.reports[i].1 <= s.reports[j].1)
  }

  lemma SendKeepsAccounts(cfg: Config, s: State, env: nat -> Outcome)
    requires Accounted(s) && !s.closed
    ensures Accounted(SendTransactions(cfg, s, env))
  {
    var b := RunBatch(env, 0, ToSend(cfg, s.txCount));
    BatchAccounting(env, 0, ToSend(cfg, s.txCount));
    TxFramesConcat(s.wire, b.frames);
    assert CloseFrame !in s.wire + b.frames;
  }

  lemma AppendKeepsAccounts(s: State, f: Frame)
    requires Accounted(s) && !s.closed && !f.TxFrame?
    ensures f == PingFrame ==> Accounted(s.(wire := s.wire + [f]))
    ensures f == CloseFrame && s.stop ==> Accounted(s.(wire := s.wire + [f], closed := true))
  {
    TxFramesConcat(s.wire, [f]);
  }

  lemma HandleKeepsAccounts(cfg: Config, s: State, e: Event)
    requires Accounted(s) && !s.closed
    ensures Accounted(Handle(cfg, s, e)) && !Handle(cfg, s, e).closed
  {
    match e
    case SendTick(env) => SendKeepsAccounts(cfg, s, env);
    case PingTick(ok) => AppendKeepsAccounts(s, PingFrame);
    case ProgressTick =>
    case TimeLimit =>
  }

  lemma TurnKeepsAccounts(cfg: Config, s: State, t: Turn)
    requires Accounted(s) && !s.closed
    ensures Accounted(Iterate(cfg, s, t))
  {
    var s0 := CheckCap(cfg, s);
    assert Accounted(s0);
    var s1 := Handle(cfg, s0, t.event);
    HandleKeepsAccounts(cfg, s0, t.event);
    var s2 := if t.cancel then SetStop(s1, Some(Cancelled)) else s1;
    assert Accounted(s2) && !s2.closed;
    if s2.stop {
      AppendKeepsAccounts(s2, CloseFrame);
    }
  }

  lemma {:induction false} RunKeepsAccounts(cfg: Config, s: State, turns: seq<Turn>)
    requires Accounted(s)
    ensures Accounted(SendLoop(cfg, s, turns))
    decreases |turns|
  {
    if !s.closed && turns != [] {
      TurnKeepsAccounts(cfg, s, turns[0]);
      RunKeepsAccounts(cfg, Iterate(cfg, s, turns[0]), turns[1..]);
    }
  }

  ghost predicate FixedSize(w: seq<Frame>, size: nat) {
    forall i :: 0 <= i < |w| && w[i].TxFrame? ==> w[i].size == size
  }

  lemma {:induction false} FixedSizeBytes(w: seq<Frame>, size: nat)
    requires FixedSize(w, size)
    ensures TxFrameBytes(w) == size * TxFrames(w)
  {
    if w != [] {
      assert FixedSize(w[1..], size) by {
        forall i | 0 <= i < |w[1..]| && w[1..][i].TxFrame? ensures w[1..][i].size == size {
          assert w[1..][i] == w[i + 1];
        }
      }
      FixedSizeBytes(w[1..], size);
      var x := if w[0].TxFrame? then 1 else 0;
      Distribute(size, x, TxFrames(w[1..]));
    }
  }

  lemma ScaledSum(c: nat, x: nat, y: nat, z: nat)
    requires z == x + y
    ensures c * z >= c * x
  {
    Distribute(c, x, y);
  }

  /** Bytes and frames of a run whose client produces transactions of one size. */
  ghost predicate FixedSizeAccounts(s: State, size: nat) {
    && TxFrames(s.wire) == s.txCount + s.breaks
    && s.txBytes == size * TxFrames(s.wire)
    && s.txBytes >= size * s.txCount
    && (TxFrames(s.wire) == s.txCount <==> s.breaks == 0)
  }

  lemma AccountsOfFixedSize(s: State, size: nat)
    requires Accounted(s) && FixedSize(s.wire, size)
    ensures FixedSizeAccounts(s, size)
  {
    FixedSizeBytes(s.wire, size);
    ScaledSum(size, s.txCount, s.breaks, TxFrames(s.wire));
  }

  lemma InitAccounted(s: State)
    requires s == INIT
    ensures Accounted(s)
  {
  }

  /** Every run from the start, including those in which generating or writing fails in the middle of a batch. */
  lemma BatchAccountingOverRuns(cfg: Config, s: State, turns: seq<Turn>, size: nat)
    requires s == INIT
    ensures var r := SendLoop(cfg, s, turns);
      FixedSize(r.wire, size) ==> FixedSizeAccounts(r, size)
  {
    hide SendLoop, FixedSize, FixedSizeAccounts, Accounted;
    InitAccounted(s);
    RunKeepsAccounts(cfg, s, turns);
    var r := SendLoop(cfg, s, turns);
    if FixedSize(r.wire, size) {
      AccountsOfFixedSize(r, size);
    }
  }

  // ------------------------------------------------------------ the count cap

  lemma {:induction false} CountCap(cfg: Config, s: State, turns: seq<Turn>)
    requires cfg.count > 0 && cfg.rate >= 0 && s.txCount <= cfg.count
    ensures SendLoop(cfg, s, turns).txCount <= cfg.count
    ensures ToSend(cfg, s.txCount) >= 0
    decreases |turns|
  {
    if !s.closed && turns != [] {
      var t := turns[0];
      if t.event.SendTick? {
        BatchAccounting(t.event.env, 0, ToSend(cfg, s.txCount));
      }
      CountCap(cfg, Iterate(cfg, s, t), turns[1..]);
    }
  }

  /** A turn in which every transaction outlives the send period. */
  function LateTurn(): Turn {
    Turn(SendTick((i: nat) => Written(1, true)), false, true)
  }

  function LateTurns(n: nat): seq<Turn> {
    if n == 0 then [] else [LateTurn()] + LateTurns(n - 1)
  }

  /**
   * `count` caps the recorded transactions only. When every batch is cut short by its deadline nothing is recorded,
   * so any number of transactions goes out and the loop never stops.
   */
  lemma {:induction false} WritesAreNotCapped(cfg: Config, s: State, n: nat)
    requires cfg.count > 0 && cfg.rate > 0 && s.txCount == 0 && !s.stop && !s.closed
    ensures var r := SendLoop(cfg, s, LateTurns(n));
      r.txCount == 0 && !r.stop && !r.closed && TxFrames(r.wire) == TxFrames(s.wire) + n
    decreases n
  {
    if n > 0 {
      assert LateTurns(n)[0] == LateTurn() && LateTurns(n)[1..] == LateTurns(n - 1);
      var s' := Iterate(cfg, s, LateTurn());
      assert s'.wire == s.wire + [TxFrame(1)];
      TxFramesConcat(s.wire, [TxFrame(1)]);
      WritesAreNotCapped(cfg, s', n - 1);
    }
  }

  lemma {:induction false} NoRateNoWrites(cfg: Config, s: State, turns: seq<Turn>)
    requires cfg.count > 0 && cfg.rate <= 0 && s.txCount == 0 && TxFrames(s.wire) == 0
    ensures TxFrames(SendLoop(cfg, s, turns).wire) == 0
    decreases |turns|
  {
    if !s.closed && turns != [] {
      var s1 := Handle(cfg, CheckCap(cfg, s), turns[0].event);
      assert s.wire + [] == s.wire;
      TxFramesConcat(s.wire, [PingFrame]);
      assert TxFrames(s1.wire) == 0;
      TxFramesConcat(s1.wire, [CloseFrame]);
      NoRateNoWrites(cfg, Iterate(cfg, s, turns[0]), turns[1..]);
    }
  }

  /** Which configurations have their writes capped whatever the network does: only those that never write. */
  lemma WriteCapExactly(cfg: Config)
    requires cfg.count > 0
    ensures (forall turns :: TxFrames(SendLoop(cfg, INIT, turns).wire) <= cfg.count) <==> cfg.rate <= 0
  {
    if cfg.rate <= 0 {
      forall turns ensures TxFrames(SendLoop(cfg, INIT, turns).wire) <= cfg.count {
        NoRateNoWrites(cfg, INIT, turns);
      }
    } else {
      WritesAreNotCapped(cfg, INIT, cfg.count + 1);
      assert TxFrames(SendLoop(cfg, INIT, LateTurns(cfg.count + 1)).wire) > cfg.count;
    }
  }

  ghost predicate NeverLate(t: Turn) {
    t.event.SendTick? ==> forall i: nat :: t.event.env(i).Written? ==> !t.event.env(i).late
  }

  lemma {:induction false} PunctualBatch(env: nat -> Outcome, i: nat, toSend: int)
    requires forall k: nat :: env(k).Written? ==> !env(k).late
    ensures !RunBatch(env, i, toSend).broke
    decreases toSend - i
  {
    if i < toSend && env(i).Written? {
      PunctualBatch(env, i + 1, toSend);
    }
  }

  /** Without a late transaction the cap does bound what is written. */
  lemma {:induction false} PunctualWritesAreCapped(cfg: Config, s: State, turns: seq<Turn>)
    requires cfg.count > 0 && cfg.rate >= 0 && s.txCount <= cfg.count && s.breaks == 0 && Accounted(s)
    requires forall i :: 0 <= i < |turns| ==> NeverLate(turns[i])
    ensures var r := SendLoop(cfg, s, turns); TxFrames(r.wire) == r.txCount <= cfg.count
    decreases |turns|
  {
    if !s.closed && turns != [] {
      var t := turns[0];
      assert NeverLate(t);
      if t.event.SendTick? {
        PunctualBatch(t.event.env, 0, ToSend(cfg, s.txCount));
        BatchAccounting(t.event.env, 0, ToSend(cfg, s.txCount));
      }
      TurnKeepsAccounts(cfg, s, t);
      PunctualWritesAreCapped(cfg, Iterate(cfg, s, t), turns[1..]);
    }
  }

  // ------------------------------------------------------------ stop discipline

  /** Once the stop flag is set, one more event completes and the connection is closed; nothing happens afterwards. */
  lemma StopWithinOneTurn(cfg: Config, s: State, turns: seq<Turn>)
    requires s.stop && !s.closed && turns != []
    ensures SendLoop(cfg, s, turns) == Iterate(cfg, s, turns[0])
    ensures SendLoop(cfg, s, turns).closed
  {
    var s' := Iterate(cfg, s, turns[0]);
    assert SendLoop(cfg, s', turns[1..]) == s';
  }

  /** No stop is taken back, no error cleared, and what has been written, recorded or reported stays. */
  ghost predicate Sticky(s: State, r: State) {
    && (s.stopErr.Some? ==> r.stopErr.Some?)
    && (s.stop ==> r.stop)
    && s.wire <= r.wire
    && s.reports <= r.reports
    && s.txCount <= r.txCount && s.txBytes <= r.txBytes
  }

  lemma StickyTrans(s: State, r: State, t: State)
    requires Sticky(s, r) && Sticky(r, t)
    ensures Sticky(s, t)
  {
  }

  lemma HandleIsSticky(cfg: Config, s: State, e: Event)
    ensures Sticky(s, Handle(cfg, s, e))
  {
    hide RunBatch, ToSend;
  }

  lemma EdgesAreSticky(cfg: Config, s: State, ok: bool)
    ensures Sticky(s, CheckCap(cfg, s)) && Sticky(s, SetStop(s, Some(Cancelled))) && Sticky(s, Close(s, ok)) && Sticky(s, s)
  {
  }

  lemma TurnIsSticky(cfg: Config, s: State, t: Turn)
    ensures Sticky(s, Iterate(cfg, s, t))
  {
    hide Sticky, Handle, CheckCap, SetStop, Close;
    var s0 := CheckCap(cfg, s);
    var s1 := Handle(cfg, s0, t.event);
    var s2 := if t.cancel then SetStop(s1, Some(Cancelled)) else s1;
    EdgesAreSticky(cfg, s, t.closeOk);
    HandleIsSticky(cfg, s0, t.event);
    EdgesAreSticky(cfg, s1, t.closeOk);
    EdgesAreSticky(cfg, s2, t.closeOk);
    StickyTrans(s, s0, s1);
    StickyTrans(s, s1, s2);
    StickyTrans(s, s2, if s2.stop then Close(s2, t.closeOk) else s2);
  }

  /** A recorded error survives every later stop, and what is on the wire stays there. */
  lemma {:induction false} ErrorsAreSticky(cfg: Config, s: State, turns: seq<Turn>)
    ensures Sticky(s, SendLoop(cfg, s, turns))
    decreases |turns|
  {
    hide Iterate;
    if !s.closed && turns != [] {
      TurnIsSticky(cfg, s, turns[0]);
      ErrorsAreSticky(cfg, Iterate(cfg, s, turns[0]), turns[1..]);
    }
  }

  /** No transaction frame follows the Close frame (section 5.5.1 of RFC 6455). */
  lemma CloseFrameIsLast(cfg: Config, turns: seq<Turn>, i: nat)
    requires i < |SendLoop(cfg, INIT, turns).wire| && SendLoop(cfg, INIT, turns).wire[i] == CloseFrame
    ensures i == |SendLoop(cfg, INIT, turns).wire| - 1
    ensures SendLoop(cfg, INIT, turns).closed
  {
    RunKeepsAccounts(cfg, INIT, turns);
  }

  /** A loop that ends without an error ended because of its cap or its time limit. */
  lemma {:induction false} CleanStop(cfg: Config, s: State, turns: seq<Turn>)
    requires !s.stop && s.stopErr.None? && !s.closed
    requires SendLoop(cfg, s, turns).closed && SendLoop(cfg, s, turns).stopErr.None?
    ensures var r := SendLoop(cfg, s, turns);
      (cfg.count > 0 && r.txCount >= cfg.count) || exists i :: 0 <= i < |turns| && turns[i].event.TimeLimit?
    decreases |turns|
  {
    var s' := Iterate(cfg, s, turns[0]);
    if s'.stop {
      ErrorsAreSticky(cfg, s', turns[1..]);
      assert s'.closed;
      assert turns[0].event.TimeLimit? || CheckCap(cfg, s).stop;
    } else {
      CleanStop(cfg, s', turns[1..]);
      if exists i :: 0 <= i < |turns[1..]| && turns[1..][i].event.TimeLimit? {
        var i :| 0 <= i < |turns[1..]| && turns[1..][i].event.TimeLimit?;
        assert turns[i + 1].event.TimeLimit?;
      }
    }
  }
}
