/** The transactor group object, and how its operations relate to the steps of `GroupModel`. */
module TransactorGroups {
  import opened Basics
  import opened LoadConfig
  import opened ConfigCheck
  import opened Transactors
  import T = TransactorModel
  import G = GroupModel

  // ------------------------------------------------------------ tracked statistics as maps

  /** A map over transactor identifiers below `n`, read with 0 for absent entries. */
  function Padded(m: map<nat, nat>, n: nat): (s: seq<nat>)
    ensures |s| == n && forall i :: 0 <= i < n ==> s[i] == if i in m then m[i] else 0
  {
    if n == 0 then [] else Padded(m, n - 1) + [if n - 1 in m then m[n - 1] else 0]
  }

  lemma {:induction false} PaddedIgnores(m: map<nat, nat>, n: nat, k: nat)
    requires n <= k
    ensures Padded(m, n) == Padded(m - {k}, n)
  {
    if n > 0 {
      PaddedIgnores(m, n - 1, k);
    }
  }

  /** Adding up the map, in any order, gives the sum over the identifiers. */
  lemma {:induction false} SumPadded(m: map<nat, nat>, n: nat)
    requires forall k :: k in m ==> k < n
    ensures SumMap(m) == Sum(Padded(m, n))
    decreases n
  {
    if n > 0 {
      var last: nat := n - 1;
      var rest := m - {last};
      PaddedIgnores(m, last, last);
      SumPadded(rest, last);
      var x := if last in m then m[last] else 0;
      SumAppend(Padded(m, last), x);
      assert Padded(m, n) == Padded(m, last) + [x];
      assert Sum(Padded(m, n)) == SumMap(rest) + x;
      if last in m {
        SumMapRemove(m, last);
        assert SumMap(m) == m[last] + SumMap(m - {last});
      } else {
        assert rest == m;
      }
    } else {
      assert m == map[];
    }
  }

  function Identifiers(n: nat): (s: set<nat>)
    ensures forall i: nat :: i in s <==> i < n
  {
    if n == 0 then {} else Identifiers(n - 1) + {n - 1}
  }

  // ------------------------------------------------------------ the object

  class TransactorGroup {
    var transactors: seq<Transactor>
    var txCounts: map<nat, nat>
    var txBytes: map<nat, nat>

    /** Transactors are distinct objects whose identifiers are their positions; statistics mention no other identifier. */
    ghost predicate Valid()
      reads this, transactors
    {
      && (forall i, j :: 0 <= i < j < |transactors| ==> transactors[i] != transactors[j])
      && (forall i :: 0 <= i < |transactors| ==> transactors[i].id == i)
      && txCounts.Keys == txBytes.Keys
      && (forall k :: k in txCounts ==> k < |transactors|)
    }

    /** What each transactor has recorded itself. */
    ghost function Counts(): (s: seq<nat>)
      reads this, transactors
      ensures |s| == |transactors| && forall i :: 0 <= i < |s| ==> s[i] == transactors[i].txCount
    {
      seq(|transactors|, i requires 0 <= i < |transactors| reads this, transactors => transactors[i].txCount)
    }

    ghost function Bytes(): (s: seq<nat>)
      reads this, transactors
      ensures |s| == |transactors| && forall i :: 0 <= i < |s| ==> s[i] == transactors[i].txBytes
    {
      seq(|transactors|, i requires 0 <= i < |transactors| reads this, transactors => transactors[i].txBytes)
    }

    constructor ()
      ensures Valid() && transactors == [] && txCounts == map[] && txBytes == map[]
    {
      transactors := [];
      txCounts, txBytes := map[], map[];
    }

    method CloseAll(closeOk: nat -> bool)
      requires Valid()
      modifies transactors
      ensures Valid()
      ensures forall i :: 0 <= i < |transactors| ==>
                transactors[i].View() == T.Close(old(transactors[i].View()), closeOk(i))
    {
      var i := 0;
      while i < |transactors|
        invariant 0 <= i <= |transactors|
        invariant Valid()
        invariant forall k :: 0 <= k < i ==> transactors[k].View() == T.Close(old(transactors[k].View()), closeOk(k))
        invariant forall k :: i <= k < |transactors| ==> transactors[k].View() == old(transactors[k].View())
      {
        transactors[i].Close(closeOk(i));
        i := i + 1;
      }
    }

    /** `dialled` says whether connecting to the endpoint succeeds. */
    method Add(cfg: Config, dialled: bool, closeOk: nat -> bool) returns (ok: bool)
      requires Valid()
      modifies this`transactors, transactors
      ensures Valid() && ok == dialled
      ensures ok ==> |transactors| == |old(transactors)| + 1 && old(transactors) == transactors[..|old(transactors)|]
      ensures ok ==> fresh(transactors[|old(transactors)|]) && transactors[|old(transactors)|].View() == T.INIT
      ensures ok ==> transactors[|old(transactors)|].config == cfg
      ensures ok ==> forall i :: 0 <= i < |old(transactors)| ==> transactors[i].View() == old(transactors[i].View())
      ensures !ok ==> transactors == old(transactors)
      ensures !ok ==> forall i :: 0 <= i < |transactors| ==>
                        transactors[i].View() == T.Close(old(transactors[i].View()), closeOk(i))
    {
      if !dialled {
        CloseAll(closeOk);
        return false;
      }
      var t := new Transactor(cfg, |transactors|);
      transactors := transactors + [t];
      return true;
    }

    /**
     * One transactor per endpoint and connection. It succeeds exactly when every dial does, and then the group holds
     * |endpoints| * connections fresh transactors with identifiers 0, 1, 2, ...; otherwise all opened so far are closed.
     */
    method AddAll(cfg: Config, dials: nat -> bool, closeOk: nat -> bool) returns (ok: bool)
      requires Valid() && transactors == []
      requires cfg.connections >= 0
      modifies this`transactors
      ensures Valid()
      ensures ok <==> forall d :: 0 <= d < |cfg.endpoints| * cfg.connections ==> dials(d)
      ensures ok ==> |transactors| == |cfg.endpoints| * cfg.connections
      ensures forall i :: 0 <= i < |transactors| ==> fresh(transactors[i]) && transactors[i].config == cfg
      ensures forall i :: 0 <= i < |transactors| ==>
                transactors[i].View() == if ok then T.INIT else T.Close(T.INIT, closeOk(i))
    {
      var e := 0;
      while e < |cfg.endpoints|
        invariant 0 <= e <= |cfg.endpoints|
        invariant Valid() && |transactors| == e * cfg.connections
        invariant forall d :: 0 <= d < |transactors| ==> dials(d)
        invariant forall i :: 0 <= i < |transactors| ==>
                    fresh(transactors[i]) && transactors[i].config == cfg && transactors[i].View() == T.INIT
      {
        var c := 0;
        while c < cfg.connections
          invariant 0 <= c <= cfg.connections
          invariant Valid() && |transactors| == e * cfg.connections + c
          invariant forall d :: 0 <= d < |transactors| ==> dials(d)
          invariant forall i :: 0 <= i < |transactors| ==>
                      fresh(transactors[i]) && transactors[i].config == cfg && transactors[i].View() == T.INIT
        {
          ghost var d := |transactors|;
          InGrid(e, c, |cfg.endpoints|, cfg.connections);
          var added := Add(cfg, dials(|transactors|), closeOk);
          if !added {
            assert !dials(d) && d < |cfg.endpoints| * cfg.connections;
            return false;
          }
          c := c + 1;
        }
        RowDone(e, cfg.connections);
        e := e + 1;
      }
      return true;
    }

    method TrackTransactorProgress(id: nat, txCount: nat, bytes: nat)
      requires Valid() && id < |transactors|
      modifies this`txCounts, this`txBytes
      ensures Valid()
      ensures txCounts == old(txCounts)[id := txCount] && txBytes == old(txBytes)[id := bytes]
    {
      txCounts := txCounts[id := txCount];
      txBytes := txBytes[id := bytes];
    }

    method TotalTxs() returns (total: nat)
      ensures total == SumMap(txCounts)
    {
      total := AddUp(txCounts);
    }

    method TotalBytes() returns (total: nat)
      ensures total == SumMap(txBytes)
    {
      total := AddUp(txBytes);
    }

    /**
     * Collects the transactors in the order in which they end. That all of them have ended is what the wait groups
     * wait for. The answer is nil exactly when none of them holds an error, and the tracked statistics are then the
     * final ones, whatever was tracked before.
     */
    method Wait() returns (err: Option<T.StopError>)
      requires Valid() && forall i :: 0 <= i < |transactors| ==> transactors[i].closed
      modifies this`txCounts, this`txBytes
      ensures Valid()
      ensures err.None? <==> forall i :: 0 <= i < |transactors| ==> transactors[i].stopErr.None?
      ensures err.Some? ==> exists i :: 0 <= i < |transactors| && transactors[i].stopErr == err
      ensures forall i :: 0 <= i < |transactors| ==>
                i in txCounts && txCounts[i] == transactors[i].txCount && txBytes[i] == transactors[i].txBytes
      ensures SumMap(txCounts) == Sum(Counts()) && SumMap(txBytes) == Sum(Bytes())
    {
      hide SumMap, Sum;
      err := None;
      var running := Identifiers(|transactors|);
      while running != {}
        invariant Valid() && running <= Identifiers(|transactors|)
        invariant err.Some? ==> exists i :: 0 <= i < |transactors| && transactors[i].stopErr == err
        invariant err.None? <==> forall i :: 0 <= i < |transactors| && i !in running ==> transactors[i].stopErr.None?
        invariant forall i :: 0 <= i < |transactors| && i !in running ==>
                    i in txCounts && txCounts[i] == transactors[i].txCount && txBytes[i] == transactors[i].txBytes
        decreases running
      {
        var i :| i in running;
        running := running - {i};
        if transactors[i].stopErr.Some? && err.None? {
          err := transactors[i].stopErr;
        }
        TrackTransactorProgress(i, transactors[i].txCount, transactors[i].txBytes);
      }
      CollectedSums();
    }

    /** Once every transactor has been collected, adding up the maps adds up what the transactors have recorded. */
    lemma CollectedSums()
      requires Valid()
      requires forall i :: 0 <= i < |transactors| ==>
                 i in txCounts && txCounts[i] == transactors[i].txCount && txBytes[i] == transactors[i].txBytes
      ensures SumMap(txCounts) == Sum(Counts()) && SumMap(txBytes) == Sum(Bytes())
    {
      SumPadded(txCounts, |transactors|);
      SumPadded(txBytes, |transactors|);
      assert Padded(txCounts, |transactors|) == Counts() && Padded(txBytes, |transactors|) == Bytes();
    }
  }

  lemma InGrid(e: nat, c: nat, rows: nat, columns: nat)
    requires e < rows && c < columns
    ensures e * columns + c < rows * columns
  {
    assert (e + 1) * columns <= rows * columns;
  }

  lemma RowDone(e: nat, columns: nat)
    ensures e * columns + columns == (e + 1) * columns
  {
  }

  // ------------------------------------------------------------ transactors and the group's steps

  ghost predicate Observes(t: G.Stat, s: T.State) {
    t.txCount == s.txCount && t.txBytes == s.txBytes && t.breaks == s.breaks
  }

  /**
   * What the send loop does to a transactor's statistics in one batch is a `Batch` step of the group, for every
   * environment in which the client produces transactions of the configured size.
   */
  lemma BatchIsStep(cfg: Config, g: G.Group, i: nat, s: T.State, env: nat -> T.Outcome)
    requires Usable(cfg) && G.Shape(g) && i < |g.stats| && !g.stats[i].finished && Observes(g.stats[i], s)
    requires T.FixedSize(T.RunBatch(env, 0, T.ToSend(cfg, s.txCount)).frames, cfg.size)
    requires cfg.count > 0 ==> s.txCount <= cfg.count
    ensures var b := T.RunBatch(env, 0, T.ToSend(cfg, s.txCount));
      && G.Enabled(cfg, g, G.Batch(i, b.sent, b.broke))
      && Observes(G.Do(cfg, g, G.Batch(i, b.sent, b.broke)).stats[i], T.SendTransactions(cfg, s, env))
  {
    var b := T.RunBatch(env, 0, T.ToSend(cfg, s.txCount));
    T.BatchAccounting(env, 0, T.ToSend(cfg, s.txCount));
    T.FixedSizeBytes(b.frames, cfg.size);
  }

  /** A transactor that has stopped hands its error, if any, to `Wait`: its end is a `Finish` step of the group. */
  lemma EndIsStep(cfg: Config, g: G.Group, i: nat, s: T.State)
    requires cfg.size >= 0 && G.Shape(g) && i < |g.stats| && !g.stats[i].finished && Observes(g.stats[i], s) && s.closed
    ensures var a := G.Finish(i, s.stopErr.Some?);
      && G.Enabled(cfg, g, a)
      && Observes(G.Do(cfg, g, a).stats[i], s) && G.Do(cfg, g, a).stats[i].finished
      && (G.Do(cfg, g, a).stats[i].stopErr <==> s.stopErr.Some? || g.stats[i].stopErr)
  {
  }

  /** Tracking writes the same entries in the object's maps as the `Track` step writes in the model's lists. */
  lemma TrackIsStep(m: map<nat, nat>, n: nat, i: nat, x: nat)
    requires i < n && forall k :: k in m ==> k < n
    ensures Padded(m[i := x], n) == Padded(m, n)[i := x]
    ensures SumMap(m[i := x]) == Sum(Padded(m, n)[i := x])
  {
    SumPadded(m[i := x], n);
  }
}
