/** What waiting for the workers and receiving their updates come to, in terms of the requests and updates alone. */
module CoordinatorProofs {
  import opened Basics
  import opened LoadConfig
  import opened CoordinatorModel

  predicate Asks(e: WaitEvent, id: string) {
    e.RegisterRequest? && e.id == id
  }

  ghost predicate LeavesBetween(es: seq<WaitEvent>, id: string, i: int, j: int) {
    exists l :: 0 <= l < |es| && i < l < j && es[l] == LeaveWhileWaiting(id)
  }

  /** Event `i` is a request for `id` by `conn` that found `id` free, and `id` has not left since. */
  ghost predicate HoldsSince(es: seq<WaitEvent>, id: string, conn: ConnId, i: int) {
    && 0 <= i < |es| && es[i] == RegisterRequest(id, conn)
    && (forall j :: 0 <= j < i && Asks(es[j], id) ==> LeavesBetween(es, id, j, i))
    && !LeavesBetween(es, id, i, |es|)
  }

  /** After the events, `id` is registered to `conn`. */
  ghost predicate Holds(es: seq<WaitEvent>, id: string, conn: ConnId) {
    exists i :: HoldsSince(es, id, conn, i)
  }

  ghost predicate Matches(workers: map<string, ConnId>, es: seq<WaitEvent>) {
    forall id, conn :: Holds(es, id, conn) <==> id in workers && workers[id] == conn
  }

  lemma BetweenGrows(es: seq<WaitEvent>, e: WaitEvent, id: string, i: int, j: int)
    requires j <= |es|
    ensures LeavesBetween(es + [e], id, i, j) <==> LeavesBetween(es, id, i, j)
  {
    var es' := es + [e];
    if LeavesBetween(es, id, i, j) {
      var l :| 0 <= l < |es| && i < l < j && es[l] == LeaveWhileWaiting(id);
      assert es'[l] == LeaveWhileWaiting(id);
    }
    if LeavesBetween(es', id, i, j) {
      var l :| 0 <= l < |es'| && i < l < j && es'[l] == LeaveWhileWaiting(id);
      assert es[l] == LeaveWhileWaiting(id);
    }
  }

  lemma BetweenEnd(es: seq<WaitEvent>, e: WaitEvent, id: string, i: int)
    requires 0 <= i < |es|
    ensures LeavesBetween(es + [e], id, i, |es| + 1) <==> LeavesBetween(es, id, i, |es|) || e == LeaveWhileWaiting(id)
  {
    var es' := es + [e];
    BetweenGrows(es, e, id, i, |es|);
    if LeavesBetween(es', id, i, |es| + 1) {
      var l :| 0 <= l < |es'| && i < l < |es| + 1 && es'[l] == LeaveWhileWaiting(id);
    }
    if e == LeaveWhileWaiting(id) {
      assert es'[|es|] == LeaveWhileWaiting(id);
    }
  }

  lemma SinceGrows(es: seq<WaitEvent>, e: WaitEvent, id: string, conn: ConnId, i: int)
    requires i < |es|
    ensures HoldsSince(es + [e], id, conn, i) <==> HoldsSince(es, id, conn, i) && e != LeaveWhileWaiting(id)
  {
    hide LeavesBetween;
    var es' := es + [e];
    if 0 <= i {
      BetweenEnd(es, e, id, i);
      forall j | 0 <= j < i ensures es'[j] == es[j] && (LeavesBetween(es', id, j, i) <==> LeavesBetween(es, id, j, i)) {
        BetweenGrows(es, e, id, j, i);
      }
    }
  }

  /** Whoever has asked and has not left since is registered, under the first request after the last departure. */
  lemma {:induction false} AskedHolds(es: seq<WaitEvent>, id: string, j: int)
    requires 0 <= j < |es| && Asks(es[j], id) && !LeavesBetween(es, id, j, |es|)
    ensures exists conn :: Holds(es, id, conn)
    decreases j
  {
    if HoldsSince(es, id, es[j].conn, j) {
      assert Holds(es, id, es[j].conn);
    } else {
      var k :| 0 <= k < j && Asks(es[k], id) && !LeavesBetween(es, id, k, j);
      NotBetween(es, id, k, j);
      AskedHolds(es, id, k);
    }
  }

  lemma NotBetween(es: seq<WaitEvent>, id: string, k: int, j: int)
    requires 0 <= k < j < |es| && Asks(es[j], id) && !LeavesBetween(es, id, k, j) && !LeavesBetween(es, id, j, |es|)
    ensures !LeavesBetween(es, id, k, |es|)
  {
    if LeavesBetween(es, id, k, |es|) {
      var l :| 0 <= l < |es| && k < l < |es| && es[l] == LeaveWhileWaiting(id);
      assert false;
    }
  }

  /** A request is the one that holds if and only if nobody held the ID before. */
  lemma RequestHolds(es: seq<WaitEvent>, id: string, conn: ConnId)
    ensures var es' := es + [RegisterRequest(id, conn)];
      HoldsSince(es', id, conn, |es|) <==> forall c :: !Holds(es, id, c)
  {
    var e := RegisterRequest(id, conn);
    var es' := es + [e];
    assert !LeavesBetween(es', id, |es|, |es'|);
    hide LeavesBetween;
    forall j | 0 <= j < |es| ensures LeavesBetween(es', id, j, |es|) <==> LeavesBetween(es, id, j, |es|) {
      BetweenGrows(es, e, id, j, |es|);
    }
    if HoldsSince(es', id, conn, |es|) {
      forall c ensures !Holds(es, id, c) {
        if i :| HoldsSince(es, id, c, i) {
          assert false;
        }
      }
    } else {
      var j :| 0 <= j < |es| && Asks(es'[j], id) && !LeavesBetween(es', id, j, |es|);
      assert es'[j] == es[j];
      AskedHolds(es, id, j);
    }
  }

  lemma HoldsGrows(es: seq<WaitEvent>, e: WaitEvent, id: string, conn: ConnId)
    ensures Holds(es + [e], id, conn) <==>
              (Holds(es, id, conn) && e != LeaveWhileWaiting(id))
              || (e == RegisterRequest(id, conn) && forall c :: !Holds(es, id, c))
  {
    var es' := es + [e];
    forall i | i < |es| ensures HoldsSince(es', id, conn, i) <==> HoldsSince(es, id, conn, i) && e != LeaveWhileWaiting(id) {
      SinceGrows(es, e, id, conn, i);
    }
    if e == RegisterRequest(id, conn) {
      RequestHolds(es, id, conn);
    }
    assert HoldsSince(es', id, conn, |es|) ==> e == RegisterRequest(id, conn) by {
      assert es'[|es|] == e;
    }
    hide LeavesBetween;
    if Holds(es', id, conn) {
      var i :| HoldsSince(es', id, conn, i);
      assert i <= |es|;
    }
  }

  lemma MatchesRegister(w: map<string, ConnId>, es: seq<WaitEvent>, id: string, conn: ConnId)
    requires Matches(w, es)
    ensures Matches(if id in w then w else w[id := conn], es + [RegisterRequest(id, conn)])
  {
    hide Holds;
    var e := RegisterRequest(id, conn);
    var w' := if id in w then w else w[id := conn];
    forall i, c ensures Holds(es + [e], i, c) <==> i in w' && w'[i] == c {
      HoldsGrows(es, e, i, c);
      if id in w {
        assert Holds(es, id, w[id]);
      }
    }
  }

  lemma MatchesLeave(w: map<string, ConnId>, es: seq<WaitEvent>, id: string)
    requires Matches(w, es)
    ensures Matches(w - {id}, es + [LeaveWhileWaiting(id)])
  {
    hide Holds;
    forall i, c ensures Holds(es + [LeaveWhileWaiting(id)], i, c) <==> i in w - {id} && (w - {id})[i] == c {
      HoldsGrows(es, LeaveWhileWaiting(id), i, c);
    }
  }

  lemma MatchesNone()
    ensures Matches(map[], [])
  {
  }

  // ------------------------------------------------------------ the loop

  /** The IDs that are registered after the events. */
  ghost function Present(es: seq<WaitEvent>): set<string> {
    set i | 0 <= i < |es| && es[i].RegisterRequest? && Holding(es, es[i].id) :: es[i].id
  }

  ghost predicate Holding(es: seq<WaitEvent>, id: string) {
    exists conn :: Holds(es, id, conn)
  }

  lemma MatchesPresent(w: map<string, ConnId>, es: seq<WaitEvent>)
    requires Matches(w, es)
    ensures w.Keys == Present(es)
  {
    forall id | id in w ensures id in Present(es) {
      assert Holds(es, id, w[id]);
      assert Holding(es, id);
      var i :| HoldsSince(es, id, w[id], i);
      assert es[i].id == id;
    }
    hide Holds;
    forall id | id in Present(es) ensures id in w {
      var conn :| Holds(es, id, conn);
    }
  }

  /** No interrupt, and never enough workers before the end. */
  ghost predicate KeepsWaiting(es: seq<WaitEvent>, n: nat, expected: nat) {
    n <= |es| && forall i: nat :: i < n ==> es[i] != Interrupted && |Present(es[..i])| < expected
  }

  ghost predicate WaitOutcomeAt(es: seq<WaitEvent>, n: nat, expected: nat, r: WaitOutcome) {
    && KeepsWaiting(es, n, expected)
    && match r
       case Full => |Present(es[..n])| == expected
       case GaveUp => |Present(es[..n])| < expected && n < |es| && es[n] == Interrupted
       case StillWaiting => |Present(es[..n])| < expected && n == |es|
  }

  lemma PresentSize(w: map<string, ConnId>, es: seq<WaitEvent>)
    requires Matches(w, es)
    ensures |Present(es)| == |w|
  {
    hide Matches, Present;
    MatchesPresent(w, es);
    assert |w| == |w.Keys|;
  }

  lemma KeepOn(es: seq<WaitEvent>, k: nat, expected: nat)
    requires k < |es| && KeepsWaiting(es, k, expected) && es[k] != Interrupted && |Present(es[..k])| < expected
    ensures KeepsWaiting(es, k + 1, expected)
  {
    hide Present;
  }

  lemma {:induction false} WaitFrom(c: Coord, expected: nat, es: seq<WaitEvent>, k: nat) returns (n: nat)
    requires k <= |es| && Matches(c.workers, es[..k]) && |c.workers| < expected && KeepsWaiting(es, k, expected)
    ensures var r := WaitLoop(c, expected, es[k..]);
      WaitOutcomeAt(es, n, expected, r.1) && Matches(r.0.workers, es[..n])
    decreases |es| - k
  {
    hide Matches, Present, KeepsWaiting, Register, Unregister;
    PresentSize(c.workers, es[..k]);
    if k == |es| {
      n := k;
    } else {
      assert es[k..][0] == es[k] && es[k..][1..] == es[k + 1..] && es[..k + 1] == es[..k] + [es[k]];
      match es[k]
      case Interrupted => n := k;
      case RegisterRequest(id, conn) =>
        KeepOn(es, k, expected);
        var c' := Register(c, expected, id, conn);
        RegisterMatches(c, expected, es[..k], id, conn);
        PresentSize(c'.workers, es[..k + 1]);
        if |c'.workers| >= expected {
          n := k + 1;
        } else {
          n := WaitFrom(c', expected, es, k + 1);
        }
      case LeaveWhileWaiting(id) =>
        KeepOn(es, k, expected);
        UnregisterMatches(c, es[..k], id);
        n := WaitFrom(Unregister(c, id), expected, es, k + 1);
    }
  }

  lemma RegisterMatches(c: Coord, expected: nat, es: seq<WaitEvent>, id: string, conn: ConnId)
    requires Matches(c.workers, es) && |c.workers| < expected
    ensures Matches(Register(c, expected, id, conn).workers, es + [RegisterRequest(id, conn)])
    ensures |Register(c, expected, id, conn).workers| <= expected
  {
    hide Matches;
    MatchesRegister(c.workers, es, id, conn);
    RegisterSize(c, expected, id, conn);
  }

  lemma UnregisterMatches(c: Coord, es: seq<WaitEvent>, id: string)
    requires Matches(c.workers, es)
    ensures Matches(Unregister(c, id).workers, es + [LeaveWhileWaiting(id)])
    ensures |Unregister(c, id).workers| <= |c.workers|
  {
    hide Matches;
    MatchesLeave(c.workers, es, id);
    UnregisterSize(c, id);
  }

  lemma OneOutcome(es: seq<WaitEvent>, expected: nat, m: nat, q: WaitOutcome, n: nat, r: WaitOutcome)
    requires WaitOutcomeAt(es, m, expected, q) && WaitOutcomeAt(es, n, expected, r)
    ensures m == n && q == r
  {
    hide Present;
  }

  /**
   * Waiting, exactly, in terms of the requests. It ends as soon as the IDs that have asked and not left since are as
   * many as expected, or when it is interrupted before that; `n` is the number of events taken until then. The workers
   * map then holds, for each ID that has asked and not left since, the connection of the first such request.
   */
  lemma WaitLoopExactly(expected: nat, es: seq<WaitEvent>, n: nat, r: WaitOutcome)
    requires expected >= 1
    ensures WaitLoop(INIT_COORD, expected, es).1 == r && Matches(WaitLoop(INIT_COORD, expected, es).0.workers, es[..n])
            <== WaitOutcomeAt(es, n, expected, r)
    ensures exists k: nat :: WaitOutcomeAt(es, k, expected, WaitLoop(INIT_COORD, expected, es).1)
  {
    MatchesNone();
    assert es[..0] == [] && es[0..] == es;
    hide Matches, WaitOutcomeAt, Present;
    assert KeepsWaiting(es, 0, expected);
    var k := WaitFrom(INIT_COORD, expected, es, 0);
    if WaitOutcomeAt(es, n, expected, r) {
      OneOutcome(es, expected, n, r, k, WaitLoop(INIT_COORD, expected, es).1);
    }
  }

  /** The load test is started only with workers that have asked to be registered and have not left since. */
  lemma FullMeansPresent(expected: nat, es: seq<WaitEvent>)
    requires expected >= 1 && WaitLoop(INIT_COORD, expected, es).1 == Full
    ensures exists n: nat ::
              && n <= |es| && |Present(es[..n])| == expected
              && Matches(WaitLoop(INIT_COORD, expected, es).0.workers, es[..n])
              && WaitLoop(INIT_COORD, expected, es).0.workers.Keys == Present(es[..n])
  {
    WaitLoopExactly(expected, es, 0, Full);
    hide Matches, Present;
    var n: nat :| WaitOutcomeAt(es, n, expected, Full);
    WaitLoopExactly(expected, es, n, Full);
    MatchesPresent(WaitLoop(INIT_COORD, expected, es).0.workers, es[..n]);
  }

  // ------------------------------------------------------------ receiving updates

  /** An update of `id` that reports a positive number of transactions. */
  predicate ReportsTxs(e: ReceiveEvent, id: string) {
    e.UpdateReceived? && e.msg.id == id && e.msg.txCount > 0
  }

  predicate ReportsBytes(e: ReceiveEvent, id: string) {
    e.UpdateReceived? && e.msg.id == id && e.msg.totalTxBytes > 0
  }

  ghost predicate LastTxs(es: seq<ReceiveEvent>, id: string, i: int) {
    0 <= i < |es| && ReportsTxs(es[i], id) && forall j :: i < j < |es| ==> !ReportsTxs(es[j], id)
  }

  ghost predicate LastBytes(es: seq<ReceiveEvent>, id: string, i: int) {
    0 <= i < |es| && ReportsBytes(es[i], id) && forall j :: i < j < |es| ==> !ReportsBytes(es[j], id)
  }

  /** `after` holds for `id` what its last positive report said, or what `before` held if there has been none. */
  ghost predicate TxsFollow(es: seq<ReceiveEvent>, id: string, before: map<string, nat>, after: map<string, nat>) {
    && (forall i :: LastTxs(es, id, i) ==> id in after && after[id] == es[i].msg.txCount)
    && ((forall i :: 0 <= i < |es| ==> !ReportsTxs(es[i], id)) ==>
          (id in after <==> id in before) && (id in before ==> after[id] == before[id]))
  }

  ghost predicate BytesFollow(es: seq<ReceiveEvent>, id: string, before: map<string, nat>, after: map<string, nat>) {
    && (forall i :: LastBytes(es, id, i) ==> id in after && after[id] == es[i].msg.totalTxBytes)
    && ((forall i :: 0 <= i < |es| ==> !ReportsBytes(es[i], id)) ==>
          (id in after <==> id in before) && (id in before ==> after[id] == before[id]))
  }

  lemma TxsFollowStep(e: ReceiveEvent, rest: seq<ReceiveEvent>, id: string, before: map<string, nat>, mid: map<string, nat>,
                      after: map<string, nat>)
    requires TxsFollow([e], id, before, mid) && TxsFollow(rest, id, mid, after)
    ensures TxsFollow([e] + rest, id, before, after)
  {
    var es := [e] + rest;
    forall i | LastTxs(es, id, i) ensures id in after && after[id] == es[i].msg.txCount {
      if i == 0 {
        assert LastTxs([e], id, 0);
        forall j | 0 <= j < |rest| ensures !ReportsTxs(rest[j], id) {
          assert es[j + 1] == rest[j];
        }
      } else {
        assert rest[i - 1] == es[i];
        forall j | i - 1 < j < |rest| ensures !ReportsTxs(rest[j], id) {
          assert es[j + 1] == rest[j];
        }
        assert LastTxs(rest, id, i - 1);
      }
    }
    if forall i :: 0 <= i < |es| ==> !ReportsTxs(es[i], id) {
      assert es[0] == e;
      forall j | 0 <= j < |rest| ensures !ReportsTxs(rest[j], id) {
        assert es[j + 1] == rest[j];
      }
    }
  }

  lemma BytesFollowStep(e: ReceiveEvent, rest: seq<ReceiveEvent>, id: string, before: map<string, nat>, mid: map<string, nat>,
                        after: map<string, nat>)
    requires BytesFollow([e], id, before, mid) && BytesFollow(rest, id, mid, after)
    ensures BytesFollow([e] + rest, id, before, after)
  {
    var es := [e] + rest;
    forall i | LastBytes(es, id, i) ensures id in after && after[id] == es[i].msg.totalTxBytes {
      if i == 0 {
        assert LastBytes([e], id, 0);
        forall j | 0 <= j < |rest| ensures !ReportsBytes(rest[j], id) {
          assert es[j + 1] == rest[j];
        }
      } else {
        assert rest[i - 1] == es[i];
        forall j | i - 1 < j < |rest| ensures !ReportsBytes(rest[j], id) {
          assert es[j + 1] == rest[j];
        }
        assert LastBytes(rest, id, i - 1);
      }
    }
    if forall i :: 0 <= i < |es| ==> !ReportsBytes(es[i], id) {
      assert es[0] == e;
      forall j | 0 <= j < |rest| ensures !ReportsBytes(rest[j], id) {
        assert es[j + 1] == rest[j];
      }
    }
  }

  lemma UpdateFollows(c: Coord, expected: nat, m: WorkerMsg, id: string)
    requires id in c.workers
    ensures var c' := Update(c, expected, m);
      && TxsFollow([UpdateReceived(m)], id, c.txsPerWorker, c'.txsPerWorker)
      && BytesFollow([UpdateReceived(m)], id, c.bytesPerWorker, c'.bytesPerWorker)
      && c'.workers == c.workers
  {
    hide SumMap;
    var e := UpdateReceived(m);
    assert [e][0] == e;
    assert ReportsTxs(e, id) ==> !(forall i :: 0 <= i < |[e]| ==> !ReportsTxs([e][i], id));
    assert ReportsBytes(e, id) ==> !(forall i :: 0 <= i < |[e]| ==> !ReportsBytes([e][i], id));
  }

  lemma OtherFollows(e: ReceiveEvent, id: string, txs: map<string, nat>, bytes: map<string, nat>)
    requires !e.UpdateReceived?
    ensures TxsFollow([e], id, txs, txs) && BytesFollow([e], id, bytes, bytes)
  {
  }

  /** While a worker stays registered, the totals recorded for it are always those of its last report. */
  lemma {:induction false} ReceiveFollows(c: Coord, expected: nat, es: seq<ReceiveEvent>, id: string)
    requires id in c.workers && forall i :: 0 <= i < |es| && es[i].Left? ==> es[i].id != id
    requires ReceiveLoop(c, expected, es).1 == StillReceiving
    ensures var r := ReceiveLoop(c, expected, es).0;
      && TxsFollow(es, id, c.txsPerWorker, r.txsPerWorker) && BytesFollow(es, id, c.bytesPerWorker, r.bytesPerWorker)
    decreases |es|
  {
    if es != [] {
      var e, rest := es[0], es[1..];
      assert es == [e] + rest;
      var mid := match e
        case UpdateReceived(m) => Update(c, expected, m)
        case Left(l, _) => Unregister(c, l)
        case Tick => Publish(c)
        case Cancelled => c;
      if e.UpdateReceived? {
        UpdateFollows(c, expected, e.msg, id);
      } else {
        OtherFollows(e, id, c.txsPerWorker, c.bytesPerWorker);
      }
      hide TxsFollow, BytesFollow, Update, UpdateVerdict, SumMap;
      ReceiveFollows(mid, expected, rest, id);
      var r := ReceiveLoop(mid, expected, rest).0;
      TxsFollowStep(e, rest, id, c.txsPerWorker, mid.txsPerWorker, r.txsPerWorker);
      BytesFollowStep(e, rest, id, c.bytesPerWorker, mid.bytesPerWorker, r.bytesPerWorker);
    }
  }

  /** A progress tick publishes the sums of what is recorded at that moment. */
  lemma {:induction false} TickPublishes(c: Coord, expected: nat, es: seq<ReceiveEvent>)
    requires ReceiveLoop(c, expected, es + [Tick]).1 == StillReceiving
    ensures var r := ReceiveLoop(c, expected, es + [Tick]).0;
      r.totalTxs == SumMap(r.txsPerWorker) && r.totalBytes == SumMap(r.bytesPerWorker)
    decreases |es|
  {
    hide SumMap, Update, UpdateVerdict;
    if es == [] {
      assert es + [Tick] == [Tick] && [Tick][1..] == [];
      assert ReceiveLoop(Publish(c), expected, []) == (Publish(c), StillReceiving);
    } else {
      assert (es + [Tick])[0] == es[0] && (es + [Tick])[1..] == es[1..] + [Tick];
      var mid := match es[0]
        case UpdateReceived(m) => Update(c, expected, m)
        case Left(l, _) => Unregister(c, l)
        case Tick => Publish(c)
        case Cancelled => c;
      TickPublishes(mid, expected, es[1..]);
    }
  }
}
