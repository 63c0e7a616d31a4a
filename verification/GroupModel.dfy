/**
 * A running transactor group: its transactors, the progress reporter and the waiting goroutines all take steps on
 * their own, so the group is a transition system. The reporter reads the transaction total and the byte total under
 * two separate acquisitions of the statistics lock, hence in two steps.
 */
module GroupModel {
  import opened Basics
  import opened LoadConfig
  import opened ConfigCheck
  import T = TransactorModel

  /** What the group can observe of one of its transactors. */
  datatype Stat = Stat(txCount: nat, txBytes: nat, breaks: nat, finished: bool, stopErr: bool)

  datatype Report = Report(txs: nat, bytes: nat)

  datatype Group = Group(
    stats: seq<Stat>,
    counts: seq<nat>,               // tracked transaction counts; an absent map entry counts as 0
    bytes: seq<nat>,                // tracked byte counts
    joined: seq<bool>,              // whose final statistics have been collected
    waitErr: bool,                  // has any collected transactor returned an error?
    pending: Option<nat>,           // the reporter has read this transaction total, but not yet the bytes
    reports: seq<Report>)           // every report made so far

  datatype Step =
    | Batch(i: nat, sent: nat, broke: bool)
    | Track(i: nat)
    | Finish(i: nat, err: bool)
    | Join(i: nat)
    | ReadTxs
    | MakeReport
    | Cancel

  function Zeros(n: nat): (s: seq<nat>)
    ensures |s| == n && forall i :: 0 <= i < n ==> s[i] == 0
  {
    if n == 0 then [] else [0] + Zeros(n - 1)
  }

  lemma {:induction false} SumZeros(n: nat)
    ensures Sum(Zeros(n)) == 0
  {
    if n > 0 {
      SumZeros(n - 1);
    }
  }

  function Start(n: nat): Group {
    Group(seq(n, _ => Stat(0, 0, 0, false, false)), Zeros(n), Zeros(n), seq(n, _ => false), false, None, [])
  }

  predicate Enabled(cfg: Config, g: Group, a: Step)
    requires Shape(g)
  {
    match a
    case Batch(i, sent, broke) =>
      && i < |g.stats| && !g.stats[i].finished
      && (sent == 0 || sent <= T.ToSend(cfg, g.stats[i].txCount))
      && (broke ==> sent < T.ToSend(cfg, g.stats[i].txCount))
    case Track(i) => i < |g.stats| && !g.stats[i].finished
    case Finish(i, _) => i < |g.stats| && !g.stats[i].finished
    case Join(i) => i < |g.stats| && g.stats[i].finished && !g.joined[i]
    case ReadTxs => g.pending.None?
    case MakeReport => g.pending.Some?
    case Cancel => true
  }

  predicate Shape(g: Group) {
    |g.counts| == |g.bytes| == |g.joined| == |g.stats|
  }

  function Collect(g: Group, i: nat): Group
    requires Shape(g) && i < |g.stats|
  {
    g.(counts := g.counts[i := g.stats[i].txCount], bytes := g.bytes[i := g.stats[i].txBytes])
  }

  function Do(cfg: Config, g: Group, a: Step): Group
    requires cfg.size >= 0 && Shape(g) && Enabled(cfg, g, a)
  {
    match a
    case Batch(i, sent, broke) =>
      var t := g.stats[i];
      var extra := if broke then 1 else 0;
      g.(stats := g.stats[i := t.(txCount := t.txCount + sent, txBytes := t.txBytes + cfg.size * (sent + extra),
                                  breaks := t.breaks + extra)])
    case Track(i) => Collect(g, i)
    case Finish(i, err) => g.(stats := g.stats[i := g.stats[i].(finished := true, stopErr := g.stats[i].stopErr || err)])
    case Join(i) =>
      Collect(g, i).(joined := g.joined[i := true], waitErr := g.waitErr || g.stats[i].stopErr)
    case ReadTxs => g.(pending := Some(Sum(g.counts)))
    case MakeReport => g.(pending := None, reports := g.reports + [Report(g.pending.value, Sum(g.bytes))])
    case Cancel => g.(stats := seq(|g.stats|, i requires 0 <= i < |g.stats| => g.stats[i].(stopErr := true)))
  }

  /** `Wait` returns once everybody has been collected and the progress reporter has gone. */
  predicate Waited(g: Group) {
    (forall i :: 0 <= i < |g.joined| ==> g.joined[i]) && g.pending.None?
  }

  function TxCounts(g: Group): seq<nat> {
    seq(|g.stats|, i requires 0 <= i < |g.stats| => g.stats[i].txCount)
  }

  function TxBytes(g: Group): seq<nat> {
    seq(|g.stats|, i requires 0 <= i < |g.stats| => g.stats[i].txBytes)
  }

  /** The total over all transactors of what each has recorded. */
  function Totals(g: Group): Report {
    Report(Sum(TxCounts(g)), Sum(TxBytes(g)))
  }

  /** A lower bound for every report still to come. */
  function Level(g: Group): Report {
    Report(if g.pending.Some? then g.pending.value else Sum(g.counts), Sum(g.bytes))
  }

  ghost predicate Below(a: Report, b: Report) {
    a.txs <= b.txs && a.bytes <= b.bytes
  }

  ghost predicate Ascending(rs: seq<Report>, top: Report) {
    && (forall i :: 0 <= i < |rs| ==> Below(rs[i], top))
    && (forall i, j :: 0 <= i < j < |rs| ==> Below(rs[i], rs[j]))
  }

  // ------------------------------------------------------------ the invariant

  ghost predicate StatOk(cfg: Config, t: Stat) {
    && t.txBytes == cfg.size * (t.txCount + t.breaks)
    && (cfg.count > 0 ==> t.txCount <= cfg.count)
  }

  ghost predicate SlotOk(cfg: Config, t: Stat, count: nat, bytes: nat, joined: bool) {
    && StatOk(cfg, t)
    && count <= t.txCount && bytes <= t.txBytes
    && cfg.size * count <= bytes
    && (joined ==> t.finished && count == t.txCount && bytes == t.txBytes)
  }

  ghost predicate Inv(cfg: Config, g: Group) {
    && Usable(cfg) && Shape(g)
    && (forall i :: 0 <= i < |g.stats| ==> SlotOk(cfg, g.stats[i], g.counts[i], g.bytes[i], g.joined[i]))
    && (g.pending.Some? ==> g.pending.value <= Sum(g.counts) && cfg.size * g.pending.value <= Sum(g.bytes))
    && Ascending(g.reports, Level(g))
    && (forall i :: 0 <= i < |g.reports| ==> cfg.size * g.reports[i].txs <= g.reports[i].bytes)
  }

  lemma StartInv(cfg: Config, n: nat)
    requires Usable(cfg)
    ensures Inv(cfg, Start(n))
  {
    SumZeros(n);
  }

  lemma BatchOk(cfg: Config, t: Stat, sent: nat, extra: nat)
    requires Usable(cfg) && StatOk(cfg, t) && (sent == 0 || sent <= T.ToSend(cfg, t.txCount))
    ensures cfg.size * (sent + extra) >= 0
    ensures StatOk(cfg, t.(txCount := t.txCount + sent, txBytes := t.txBytes + cfg.size * (sent + extra),
                           breaks := t.breaks + extra))
  {
    Distribute(cfg.size, t.txCount + t.breaks, sent + extra);
  }

  lemma SizeMono(size: nat, count: nat, breaks: nat)
    ensures size * count <= size * (count + breaks)
  {
    Distribute(size, count, breaks);
  }

  /** Collecting a transactor's statistics can only raise the tracked totals. */
  lemma CollectInv(cfg: Config, g: Group, i: nat)
    requires Inv(cfg, g) && i < |g.stats|
    ensures var g' := Collect(g, i);
      Inv(cfg, g') && Sum(g.counts) <= Sum(g'.counts) && Sum(g.bytes) <= Sum(g'.bytes)
  {
    var g' := Collect(g, i);
    var t := g.stats[i];
    assert SlotOk(cfg, t, g.counts[i], g.bytes[i], g.joined[i]);
    SumUpdate(g.counts, i, t.txCount);
    SumUpdate(g.bytes, i, t.txBytes);
    assert SlotOk(cfg, t, t.txCount, t.txBytes, g.joined[i]) by {
      SizeMono(cfg.size, t.txCount, t.breaks);
    }
    forall k | 0 <= k < |g'.stats| ensures SlotOk(cfg, g'.stats[k], g'.counts[k], g'.bytes[k], g'.joined[k]) {
      assert SlotOk(cfg, g.stats[k], g.counts[k], g.bytes[k], g.joined[k]);
    }
  }

  lemma ScaledTotals(cfg: Config, g: Group)
    requires Inv(cfg, g)
    ensures cfg.size * Sum(g.counts) <= Sum(g.bytes)
  {
    forall i | 0 <= i < |g.counts| ensures cfg.size * g.counts[i] <= g.bytes[i] {
      assert SlotOk(cfg, g.stats[i], g.counts[i], g.bytes[i], g.joined[i]);
    }
    SumScaled(g.counts, g.bytes, cfg.size);
  }

  lemma BatchInv(cfg: Config, g: Group, i: nat, sent: nat, broke: bool)
    requires Inv(cfg, g) && Enabled(cfg, g, Batch(i, sent, broke))
    ensures Inv(cfg, Do(cfg, g, Batch(i, sent, broke)))
  {
    var g' := Do(cfg, g, Batch(i, sent, broke));
    assert SlotOk(cfg, g.stats[i], g.counts[i], g.bytes[i], g.joined[i]);
    BatchOk(cfg, g.stats[i], sent, if broke then 1 else 0);
    forall k | 0 <= k < |g'.stats| ensures SlotOk(cfg, g'.stats[k], g'.counts[k], g'.bytes[k], g'.joined[k]) {
      assert SlotOk(cfg, g.stats[k], g.counts[k], g.bytes[k], g.joined[k]);
    }
  }

  lemma StepInv(cfg: Config, g: Group, a: Step)
    requires Inv(cfg, g) && Enabled(cfg, g, a)
    ensures Inv(cfg, Do(cfg, g, a))
    ensures Below(Level(g), Level(Do(cfg, g, a)))
    ensures |Do(cfg, g, a).stats| == |g.stats|
  {
    match a
    case Batch(i, sent, broke) => BatchInv(cfg, g, i, sent, broke);
    case Track(i) => CollectInv(cfg, g, i);
    case Finish(i, err) => StopInv(cfg, g, a);
    case Join(i) => JoinInv(cfg, g, i);
    case ReadTxs => ScaledTotals(cfg, g);
    case MakeReport => ReportInv(cfg, g);
    case Cancel => StopInv(cfg, g, a);
  }

  lemma StopInv(cfg: Config, g: Group, a: Step)
    requires Inv(cfg, g) && Enabled(cfg, g, a) && (a.Finish? || a.Cancel?)
    ensures Inv(cfg, Do(cfg, g, a)) && Level(Do(cfg, g, a)) == Level(g)
  {
    hide Sum;
    var g' := Do(cfg, g, a);
    forall k | 0 <= k < |g'.stats| ensures SlotOk(cfg, g'.stats[k], g'.counts[k], g'.bytes[k], g'.joined[k]) {
      assert SlotOk(cfg, g.stats[k], g.counts[k], g.bytes[k], g.joined[k]);
    }
  }

  lemma JoinInv(cfg: Config, g: Group, i: nat)
    requires Inv(cfg, g) && Enabled(cfg, g, Join(i))
    ensures Inv(cfg, Do(cfg, g, Join(i))) && Below(Level(g), Level(Do(cfg, g, Join(i))))
  {
    hide Sum;
    CollectInv(cfg, g, i);
    var c, g' := Collect(g, i), Do(cfg, g, Join(i));
    forall k | 0 <= k < |g'.stats| ensures SlotOk(cfg, g'.stats[k], g'.counts[k], g'.bytes[k], g'.joined[k]) {
      assert SlotOk(cfg, c.stats[k], c.counts[k], c.bytes[k], c.joined[k]);
    }
  }

  lemma ReportInv(cfg: Config, g: Group)
    requires Inv(cfg, g) && g.pending.Some?
    ensures Inv(cfg, Do(cfg, g, MakeReport))
    ensures Below(Level(g), Level(Do(cfg, g, MakeReport)))
  {
    var g' := Do(cfg, g, MakeReport);
    var r := Report(g.pending.value, Sum(g.bytes));
    assert r == Level(g) && Below(r, Level(g'));
    assert Ascending(g'.reports, Level(g'));
  }

  // ------------------------------------------------------------ what a finished group has counted

  /**
   * When `Wait` has returned, the tracked totals are the sums of the transactors' final statistics, whatever was
   * tracked before and in whatever order; bytes account for every transaction written; and the cap bounds the total.
   */
  lemma WaitedTotals(cfg: Config, g: Group)
    requires Inv(cfg, g) && Waited(g)
    ensures Level(g) == Totals(g)
    ensures cfg.size * Totals(g).txs <= Totals(g).bytes
    ensures cfg.count > 0 ==> Totals(g).txs <= |g.stats| * cfg.count
  {
    forall i | 0 <= i < |g.stats|
      ensures g.counts[i] == TxCounts(g)[i] && g.bytes[i] == TxBytes(g)[i]
      ensures cfg.count > 0 ==> g.counts[i] <= cfg.count
    {
      assert SlotOk(cfg, g.stats[i], g.counts[i], g.bytes[i], g.joined[i]);
    }
    assert g.counts == TxCounts(g) && g.bytes == TxBytes(g);
    ScaledTotals(cfg, g);
    if cfg.count > 0 {
      SumBounded(g.counts, cfg.count);
    }
  }

  ghost predicate IsRun(cfg: Config, n: nat, run: seq<Group>) {
    && run != [] && run[0] == Start(n)
    && (forall i :: 0 <= i < |run| ==> Shape(run[i]))
    && cfg.size >= 0
    && forall i :: 0 <= i < |run| - 1 ==> Follows(cfg, run[i], run[i + 1])
  }

  ghost predicate Follows(cfg: Config, g: Group, g': Group)
    requires cfg.size >= 0 && Shape(g)
  {
    exists a :: Enabled(cfg, g, a) && g' == Do(cfg, g, a)
  }

  lemma {:induction false} RunInv(cfg: Config, n: nat, run: seq<Group>, k: nat)
    requires Usable(cfg) && IsRun(cfg, n, run) && k < |run|
    ensures Inv(cfg, run[k]) && |run[k].stats| == n
  {
    hide Inv, Do, Enabled;
    if k == 0 {
      StartInv(cfg, n);
    } else {
      RunInv(cfg, n, run, k - 1);
      assert Follows(cfg, run[k - 1], run[k - 1 + 1]);
      var a :| Enabled(cfg, run[k - 1], a) && run[k] == Do(cfg, run[k - 1], a);
      StepInv(cfg, run[k - 1], a);
    }
  }

  /** Over every run: reports never decrease in either component, and never claim more transactions than bytes allow. */
  lemma ReportsOverRuns(cfg: Config, n: nat, run: seq<Group>, k: nat, i: nat, j: nat)
    requires Usable(cfg) && IsRun(cfg, n, run) && k < |run| && i <= j < |run[k].reports|
    ensures Below(run[k].reports[i], run[k].reports[j])
    ensures cfg.size * run[k].reports[j].txs <= run[k].reports[j].bytes
  {
    RunInv(cfg, n, run, k);
  }

  // ------------------------------------------------------------ a cancelled group

  /** Transactor `i` holds an error, and `Wait` either knows it or has still to collect that transactor. */
  ghost predicate Doomed(g: Group, i: nat) {
    Shape(g) && i < |g.stats| && g.stats[i].stopErr && (g.joined[i] ==> g.waitErr)
  }

  lemma StaysDoomed(cfg: Config, g: Group, a: Step, i: nat)
    requires cfg.size >= 0 && Doomed(g, i) && Enabled(cfg, g, a)
    ensures Doomed(Do(cfg, g, a), i)
  {
  }

  lemma CancelDooms(cfg: Config, g: Group, i: nat)
    requires cfg.size >= 0 && Shape(g) && i < |g.stats| && !g.joined[i]
    ensures Doomed(Do(cfg, g, Cancel), i)
  {
  }

  /**
   * A group that is cancelled, by an interrupt or because a progress report could not be written, while one of its
   * transactors has not been collected yet, can only end with an error.
   */
  lemma {:induction false} CancelFailsWait(cfg: Config, n: nat, run: seq<Group>, j: nat, k: nat, i: nat)
    requires IsRun(cfg, n, run) && j < k < |run| && run[j + 1] == Do(cfg, run[j], Cancel)
    requires i < |run[j].joined| && !run[j].joined[i]
    ensures Doomed(run[k], i)
    ensures Waited(run[k]) ==> run[k].waitErr
    decreases k
  {
    hide Do, Enabled;
    if k == j + 1 {
      CancelDooms(cfg, run[j], i);
    } else {
      CancelFailsWait(cfg, n, run, j, k - 1, i);
      assert Follows(cfg, run[k - 1], run[k - 1 + 1]);
      var a :| Enabled(cfg, run[k - 1], a) && run[k] == Do(cfg, run[k - 1], a);
      StaysDoomed(cfg, run[k - 1], a, i);
    }
  }

  // ------------------------------------------------------------ when `Wait` returns an error

  ghost predicate TakesSteps(cfg: Config, n: nat, run: seq<Group>, steps: seq<Step>) {
    && cfg.size >= 0 && |run| == |steps| + 1 && run[0] == Start(n)
    && (forall i :: 0 <= i < |run| ==> Shape(run[i]))
    && forall i :: 0 <= i < |steps| ==> Enabled(cfg, run[i], steps[i]) && run[i + 1] == Do(cfg, run[i], steps[i])
  }

  lemma StepsAreRun(cfg: Config, n: nat, run: seq<Group>, steps: seq<Step>)
    requires TakesSteps(cfg, n, run, steps)
    ensures IsRun(cfg, n, run)
  {
    hide Do, Enabled;
    forall i | 0 <= i < |run| - 1 ensures Follows(cfg, run[i], run[i + 1]) {
      assert Enabled(cfg, run[i], steps[i]);
    }
  }

  /** Only transactors that have ended are collected. */
  ghost predicate JoinedEnded(g: Group) {
    Shape(g) && forall i :: 0 <= i < |g.stats| && g.joined[i] ==> g.stats[i].finished
  }

  lemma {:induction false} RunJoinsEnded(cfg: Config, n: nat, run: seq<Group>, k: nat)
    requires IsRun(cfg, n, run) && k < |run|
    ensures JoinedEnded(run[k])
  {
    hide Do, Enabled, Start;
    if k == 0 {
      StartJoins(n);
    } else {
      RunJoinsEnded(cfg, n, run, k - 1);
      assert Follows(cfg, run[k - 1], run[k - 1 + 1]);
      var a :| Enabled(cfg, run[k - 1], a) && run[k] == Do(cfg, run[k - 1], a);
      StepJoinsEnded(cfg, run[k - 1], a);
    }
  }

  lemma StartJoins(n: nat)
    ensures JoinedEnded(Start(n))
  {
  }

  lemma StepJoinsEnded(cfg: Config, g: Group, a: Step)
    requires cfg.size >= 0 && JoinedEnded(g) && Enabled(cfg, g, a)
    ensures JoinedEnded(Do(cfg, g, a))
  {
  }

  /** A transactor ends with an error of its own, or a group is cancelled that has not been collected completely. */
  ghost predicate Culprit(g: Group, a: Step) {
    (a.Finish? && a.err) || (a.Cancel? && exists i :: 0 <= i < |g.joined| && !g.joined[i])
  }

  lemma CulpritDooms(cfg: Config, g: Group, a: Step)
    requires cfg.size >= 0 && JoinedEnded(g) && Enabled(cfg, g, a) && Culprit(g, a)
    ensures exists i: nat :: Doomed(Do(cfg, g, a), i)
  {
    if a.Finish? {
      assert Doomed(Do(cfg, g, a), a.i);
    } else {
      var i: nat :| i < |g.joined| && !g.joined[i];
      CancelDooms(cfg, g, i);
    }
  }

  lemma {:induction false} RunStaysDoomed(cfg: Config, n: nat, run: seq<Group>, j: nat, k: nat, i: nat)
    requires IsRun(cfg, n, run) && j <= k < |run| && Doomed(run[j], i)
    ensures Doomed(run[k], i)
    decreases k
  {
    hide Do, Enabled, Doomed;
    if j < k {
      RunStaysDoomed(cfg, n, run, j, k - 1, i);
      assert Follows(cfg, run[k - 1], run[k - 1 + 1]);
      var a :| Enabled(cfg, run[k - 1], a) && run[k] == Do(cfg, run[k - 1], a);
      StaysDoomed(cfg, run[k - 1], a, i);
    }
  }

  /** An error is known to `Wait`, or held by a transactor that it has still to collect. */
  ghost predicate Ailing(g: Group) {
    g.waitErr || (Shape(g) && exists i :: 0 <= i < |g.stats| && !g.joined[i] && g.stats[i].stopErr)
  }

  lemma AilingHasCulprit(cfg: Config, g: Group, a: Step)
    requires cfg.size >= 0 && Shape(g) && Enabled(cfg, g, a) && Ailing(Do(cfg, g, a))
    ensures Ailing(g) || Culprit(g, a)
  {
  }

  lemma {:induction false} AilingSince(cfg: Config, n: nat, run: seq<Group>, steps: seq<Step>, k: nat)
    requires TakesSteps(cfg, n, run, steps) && k < |run| && Ailing(run[k])
    ensures exists j :: 0 <= j < k && Culprit(run[j], steps[j])
  {
    hide Do, Enabled, Ailing, Culprit;
    if k == 0 {
      StartIsWell(n);
    } else {
      assert Enabled(cfg, run[k - 1], steps[k - 1]) && run[k - 1 + 1] == Do(cfg, run[k - 1], steps[k - 1]);
      AilingHasCulprit(cfg, run[k - 1], steps[k - 1]);
      if Ailing(run[k - 1]) {
        AilingSince(cfg, n, run, steps, k - 1);
      }
    }
  }

  lemma StartIsWell(n: nat)
    ensures !Ailing(Start(n))
  {
  }

  /**
   * `Wait` returns an error if and only if some transactor ended with an error of its own, or the group was cancelled
   * while one of them had not been collected.
   */
  lemma WaitErrExactly(cfg: Config, n: nat, run: seq<Group>, steps: seq<Step>, k: nat)
    requires TakesSteps(cfg, n, run, steps) && k < |run| && Waited(run[k])
    ensures run[k].waitErr <==> exists j :: 0 <= j < k && Culprit(run[j], steps[j])
  {
    hide Do, Enabled, Culprit;
    StepsAreRun(cfg, n, run, steps);
    if run[k].waitErr {
      AilingSince(cfg, n, run, steps, k);
    }
    if j: nat :| j < k && Culprit(run[j], steps[j]) {
      RunJoinsEnded(cfg, n, run, j);
      assert Enabled(cfg, run[j], steps[j]) && run[j + 1] == Do(cfg, run[j], steps[j]);
      CulpritDooms(cfg, run[j], steps[j]);
      var i: nat :| Doomed(run[j + 1], i);
      RunStaysDoomed(cfg, n, run, j + 1, k, i);
    }
  }

  // ------------------------------------------------------------ what tracking and reporting are for

  /** Tracking makes one transactor's recorded statistics known and leaves everything else alone. */
  lemma TrackCollects(cfg: Config, g: Group, i: nat)
    requires cfg.size >= 0 && Shape(g) && Enabled(cfg, g, Track(i))
    ensures var g' := Do(cfg, g, Track(i));
      && Shape(g') && g'.counts[i] == g.stats[i].txCount && g'.bytes[i] == g.stats[i].txBytes
      && (forall j :: 0 <= j < |g.counts| && j != i ==> g'.counts[j] == g.counts[j] && g'.bytes[j] == g.bytes[j])
      && g'.stats == g.stats && g'.joined == g.joined && g'.waitErr == g.waitErr && g'.reports == g.reports
  {
  }

  /** If every transactor has been tracked since it last recorded anything, a report made now is the true total. */
  lemma FreshReportIsExact(cfg: Config, g: Group)
    requires cfg.size >= 0 && Shape(g) && Enabled(cfg, g, ReadTxs)
    requires forall i :: 0 <= i < |g.stats| ==> g.counts[i] == g.stats[i].txCount && g.bytes[i] == g.stats[i].txBytes
    ensures var g1 := Do(cfg, g, ReadTxs);
      && Shape(g1) && Enabled(cfg, g1, MakeReport)
      && Do(cfg, g1, MakeReport).reports == g.reports + [Totals(g)]
  {
    assert g.counts == TxCounts(g) && g.bytes == TxBytes(g);
  }
}
