/** The socket that carries the worker protocol: a FIFO writer that flushes what is queued when it is stopped. */
module SimpleSockets {
  import opened Basics

  /** The data of a queued write. Its response channel is identified by its place in the order of arrival. */
  type Request = string

  datatype Frame = TextFrame(data: string) | CloseFrame

  /** What the event loop of `Run` sees next. */
  datatype Event = Arrives(req: Request) | Takes(ok: bool) | StopSignal

  /** The frames that handling `reqs` puts on the wire, when `oks` says which writes succeed. */
  function Delivered(reqs: seq<Request>, oks: seq<bool>): seq<Frame>
    requires |reqs| == |oks|
  {
    if reqs == [] then []
    else Delivered(reqs[..|reqs| - 1], oks[..|oks| - 1])
         + (if oks[|oks| - 1] then [TextFrame(reqs[|reqs| - 1])] else [])
  }

  lemma DeliveredAppend(reqs: seq<Request>, oks: seq<bool>, r: Request, ok: bool)
    requires |reqs| == |oks|
    ensures Delivered(reqs + [r], oks + [ok]) == Delivered(reqs, oks) + if ok then [TextFrame(r)] else []
  {
    assert (reqs + [r])[..|reqs|] == reqs && (oks + [ok])[..|oks|] == oks;
  }

  /** How many of the first `i` writes succeeded. */
  function Successes(oks: seq<bool>, i: nat): (n: nat)
    requires i <= |oks|
    ensures n <= i
  {
    if i == 0 then 0 else Successes(oks, i - 1) + if oks[i - 1] then 1 else 0
  }

  lemma {:induction false} SuccessesPrefix(oks: seq<bool>, n: nat, i: nat)
    requires i <= n <= |oks|
    ensures Successes(oks[..n], i) == Successes(oks, i)
  {
    if i > 0 {
      SuccessesPrefix(oks, n, i - 1);
    }
  }

  /**
   * First in, first out: the frames on the wire are exactly those of the successful writes, the i-th write's frame
   * standing behind the frames of the successful writes before it.
   */
  lemma {:induction false} FramesInOrder(reqs: seq<Request>, oks: seq<bool>, i: nat)
    requires |reqs| == |oks|
    ensures |Delivered(reqs, oks)| == Successes(oks, |oks|)
    ensures i < |oks| && oks[i] ==>
              Successes(oks, i) < |Delivered(reqs, oks)| && Delivered(reqs, oks)[Successes(oks, i)] == TextFrame(reqs[i])
    decreases |reqs|
  {
    if reqs != [] {
      var n := |reqs| - 1;
      FramesInOrder(reqs[..n], oks[..n], i);
      SuccessesPrefix(oks, n, n);
      if i < n {
        SuccessesPrefix(oks, n, i);
      }
    }
  }

  /** A successful write's frame stands strictly before those of all later writes. */
  lemma {:induction false} OrderKept(oks: seq<bool>, i: nat, j: nat)
    requires i < j <= |oks|
    ensures Successes(oks, i) + (if oks[i] then 1 else 0) <= Successes(oks, j)
    decreases j
  {
    if i < j - 1 {
      OrderKept(oks, i, j - 1);
    }
  }

  class SimpleSocket {
    const flushOnStop: bool
    const sendCloseMessage: bool
    var outbound: seq<Request>
    var oks: seq<bool>                   // one response per request taken off the queue: was it nil?
    ghost var handled: seq<Request>      // requests taken off the queue, in order
    ghost var wire: seq<Frame>

    ghost predicate Valid()
      reads this
    {
      |handled| == |oks| && wire == Delivered(handled, oks)
    }

    /** Every request taken off the queue was answered, nil exactly if its frame is on the wire. It outlives `Close`. */
    ghost predicate Answered()
      reads this
    {
      |handled| == |oks| && Delivered(handled, oks) <= wire
    }

    /** Every request ever queued, in order of arrival. */
    ghost function Arrived(): seq<Request>
      reads this
    {
      handled + outbound
    }

    constructor (flushOnStop: bool, sendCloseMessage: bool)
      ensures Valid() && outbound == [] && handled == [] && wire == []
      ensures this.flushOnStop == flushOnStop && this.sendCloseMessage == sendCloseMessage
    {
      this.flushOnStop, this.sendCloseMessage := flushOnStop, sendCloseMessage;
      outbound, oks := [], [];
      handled, wire := [], [];
    }

    /** The answer is the request's place in the order of arrival. */
    method Enqueue(req: Request) returns (ticket: nat)
      requires Valid()
      modifies this`outbound
      ensures Valid() && Arrived() == old(Arrived()) + [req] && outbound == old(outbound) + [req]
      ensures ticket < |Arrived()| && Arrived()[ticket] == req
    {
      ticket := |oks| + |outbound|;
      outbound := outbound + [req];
    }

    /** Writes the oldest request and answers it, once. */
    method HandleWrite(ok: bool)
      requires Valid() && outbound != []
      modifies this`outbound, this`oks, this`handled, this`wire
      ensures Valid() && Arrived() == old(Arrived())
      ensures outbound == old(outbound)[1..]
      ensures handled == old(handled) + [old(outbound)[0]] && oks == old(oks) + [ok]
      ensures wire == old(wire) + if ok then [TextFrame(old(outbound)[0])] else []
    {
      var req := outbound[0];
      DeliveredAppend(handled, oks, req, ok);
      outbound := outbound[1..];
      wire := wire + if ok then [TextFrame(req)] else [];
      handled, oks := handled + [req], oks + [ok];
    }

    /**
     * Flushes what is queued now; `late(i)` are the requests that arrive while the i-th of them is being written, and
     * stay queued.
     */
    method Flush(late: nat -> seq<Request>, flushOk: nat -> bool)
      requires Valid()
      modifies this`outbound, this`oks, this`handled, this`wire
      ensures Valid() && old(wire) <= wire && old(oks) <= oks
      ensures handled == old(handled) + old(outbound)
      ensures outbound == Arrivals(late, |old(outbound)|)
      ensures forall i :: 0 <= i < |old(outbound)| ==> |old(oks)| + i < |oks| && oks[|old(oks)| + i] == flushOk(i)
    {
      hide Delivered;
      var remaining := |outbound|;
      ghost var queued := outbound;
      var i := 0;
      while i < remaining
        invariant 0 <= i <= remaining == |queued|
        invariant Valid() && old(wire) <= wire
        invariant handled == old(handled) + queued[..i]
        invariant outbound == queued[i..] + Arrivals(late, i)
        invariant |oks| == |old(oks)| + i && old(oks) <= oks
        invariant forall k :: 0 <= k < i ==> oks[|old(oks)| + k] == flushOk(k)
      {
        outbound := outbound + late(i);
        assert outbound[0] == queued[i] && queued[..i + 1] == queued[..i] + [queued[i]];
        HandleWrite(flushOk(i));
        i := i + 1;
      }
    }

    /**
     * Everything queued when the queue is counted is attempted, in order, before the Close frame, and no data frame
     * follows it.
     */
    method Close(late: nat -> seq<Request>, flushOk: nat -> bool, closeOk: bool)
      requires Valid()
      modifies this`outbound, this`oks, this`handled, this`wire
      ensures Answered() && old(oks) <= oks
      ensures Arrived() == old(Arrived()) + if flushOnStop then Arrivals(late, |old(outbound)|) else []
      ensures handled == if flushOnStop then old(handled) + old(outbound) else old(handled)
      ensures flushOnStop ==> forall i :: 0 <= i < |old(outbound)| ==> oks[|old(oks)| + i] == flushOk(i)
      ensures wire == Delivered(handled, oks) + if sendCloseMessage && closeOk then [CloseFrame] else []
      ensures CloseFrame !in Delivered(handled, oks) && old(wire) <= wire
    {
      hide Delivered;
      if flushOnStop {
        Flush(late, flushOk);
      }
      NoCloseFrames(handled, oks);
      if sendCloseMessage && closeOk {
        wire := wire + [CloseFrame];
      }
    }

    /**
     * The event loop up to the stop signal, which may be taken even while requests are queued. `n` events come before
     * it. If the loop never takes from an empty queue, it answers one request for each time it takes one, in order of
     * arrival, nil exactly if that write succeeds; what it has not taken stays queued.
     */
    method Run(es: seq<Event>) returns (stopped: bool)
      requires Valid()
      modifies this`outbound, this`oks, this`handled, this`wire
      ensures Valid() && old(handled) <= handled && old(oks) <= oks
      ensures stopped <==> StopSignal in es
      ensures forall n: nat :: EndsRun(es, n) ==> Arrived() == old(Arrived()) + Requests(es[..n])
      ensures forall n: nat :: EndsRun(es, n) && WellFed(old(|outbound|), es[..n]) ==> oks == old(oks) + Answers(es[..n])
    {
      hide WellFed, Delivered, Requests, Answers;
      var i := 0;
      assert es[..0] == [];
      NothingYet();
      while i < |es|
        invariant 0 <= i <= |es| && StopSignal !in es[..i]
        invariant Valid() && old(handled) <= handled && old(oks) <= oks
        invariant Arrived() == old(Arrived()) + Requests(es[..i])
        invariant WellFed(old(|outbound|), es[..i]) ==> oks == old(oks) + Answers(es[..i])
      {
        ghost var room := |outbound|;
        EventsStep(es, i);
        if WellFed(old(|outbound|), es[..i + 1]) {
          FedStep(old(|outbound|), es, i);
        }
        match es[i] {
          case Arrives(req) =>
            var _ := Enqueue(req);
          case Takes(ok) =>
            assert WellFed(old(|outbound|), es[..i + 1]) ==> room > 0;
            if outbound != [] {
              HandleWrite(ok);
            }
          case StopSignal =>
            OneEnd(es, i);
            return true;
        }
        i := i + 1;
      }
      OneEnd(es, i);
      return false;
    }

    /**
     * `Write` returns nil only if its response arrives in time and is nil: the frame is then on the wire, even if it
     * was answered by the flush of a socket that has been closed since.
     */
    method AwaitWrite(ticket: nat, inTime: bool) returns (ok: bool)
      requires Answered() && ticket < |Arrived()|
      ensures ok <==> inTime && ticket < |oks| && oks[ticket]
      ensures ok ==> TextFrame(Arrived()[ticket]) in wire
    {
      ok := inTime && ticket < |oks| && oks[ticket];
      if ok {
        FramesInOrder(handled, oks, ticket);
      }
    }
  }

  /** Everything that has arrived before flush step `n`. */
  function Arrivals(late: nat -> seq<Request>, n: nat): seq<Request> {
    if n == 0 then [] else Arrivals(late, n - 1) + late(n - 1)
  }

  function Requests(es: seq<Event>): seq<Request> {
    if es == [] then [] else Requests(es[..|es| - 1]) + if es[|es| - 1].Arrives? then [es[|es| - 1].req] else []
  }

  /** The outcomes of the writes that the events take off the queue. */
  function Answers(es: seq<Event>): seq<bool> {
    if es == [] then [] else Answers(es[..|es| - 1]) + if es[|es| - 1].Takes? then [es[|es| - 1].ok] else []
  }

  /** Starting with `queued` requests, the events never take from an empty queue. */
  ghost predicate WellFed(queued: nat, es: seq<Event>) {
    forall n: nat :: n <= |es| ==> |Answers(es[..n])| <= queued + |Requests(es[..n])|
  }

  /** The first `n` events come before the stop signal, if there is one. */
  ghost predicate EndsRun(es: seq<Event>, n: nat) {
    n <= |es| && StopSignal !in es[..n] && (n < |es| ==> es[n] == StopSignal)
  }

  lemma NoStopBefore(es: seq<Event>, n: nat, m: nat)
    requires m < n <= |es| && StopSignal !in es[..n]
    ensures es[m] != StopSignal
  {
    assert es[m] == es[..n][m];
  }

  lemma OneEnd(es: seq<Event>, n: nat)
    requires EndsRun(es, n)
    ensures forall m: nat :: EndsRun(es, m) <==> m == n
    ensures n < |es| <==> StopSignal in es
  {
    forall m: nat | EndsRun(es, m) ensures m == n {
      if m < n {
        NoStopBefore(es, n, m);
      } else if n < m {
        NoStopBefore(es, m, n);
      }
    }
    assert n == |es| ==> es[..n] == es;
  }

  lemma NothingYet()
    ensures Requests([]) == [] && Answers([]) == []
  {
  }

  lemma EventsStep(es: seq<Event>, i: nat)
    requires i < |es|
    ensures Requests(es[..i + 1]) == Requests(es[..i]) + if es[i].Arrives? then [es[i].req] else []
    ensures Answers(es[..i + 1]) == Answers(es[..i]) + if es[i].Takes? then [es[i].ok] else []
  {
    assert es[..i + 1][..i] == es[..i];
  }

  lemma FedStep(queued: nat, es: seq<Event>, i: nat)
    requires i < |es| && WellFed(queued, es[..i + 1])
    ensures WellFed(queued, es[..i])
    ensures |Answers(es[..i + 1])| <= queued + |Requests(es[..i + 1])|
  {
    assert es[..i + 1][..i + 1] == es[..i + 1];
    forall n: nat | n <= i ensures |Answers(es[..i][..n])| <= queued + |Requests(es[..i][..n])| {
      assert es[..i][..n] == es[..i + 1][..n];
    }
  }

  lemma {:induction false} NoCloseFrames(reqs: seq<Request>, oks: seq<bool>)
    requires |reqs| == |oks|
    ensures CloseFrame !in Delivered(reqs, oks)
    decreases |reqs|
  {
    if reqs != [] {
      NoCloseFrames(reqs[..|reqs| - 1], oks[..|oks| - 1]);
    }
  }
}
