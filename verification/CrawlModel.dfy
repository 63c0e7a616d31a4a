/**
 * The peer crawl on values: what one round of queries makes of the known peers, when the crawl may stop, and which
 * endpoints are selected. `Crawl` is the code that does this on heap-allocated records.
 */
module CrawlModel {
  import opened Basics

  type Addr = string

  function PeerAddr(host: string): Addr {
    "http://" + host + ":26657"
  }

  lemma PeerAddrInjective(g: string, h: string)
    requires PeerAddr(g) == PeerAddr(h)
    ensures g == h
  {
    var pre, post := "http://", ":26657";
    assert g == PeerAddr(g)[|pre|..|PeerAddr(g)| - |post|];
    assert h == PeerAddr(h)[|pre|..|PeerAddr(h)| - |post|];
  }

  datatype Info = Info(neighbours: seq<Addr>, queried: bool)

  type Known = map<Addr, Info>

  /** The neighbour lists of the peers that answered in a round. */
  type Replies = map<Addr, seq<Addr>>

  /** What the network does in a round: it answers some queries, or the round times out or is cancelled. */
  datatype RoundEnv = Answers(net: Replies) | RoundFails

  function RepliesOf(k: Known, net: Replies): Replies {
    map a | a in k && a in net :: net[a]
  }

  ghost function Reported(r: Replies): set<Addr> {
    set a, b | a in r && b in r[a] :: b
  }

  /** Queried peers keep their own record; addresses that were only reported get an empty one. */
  ghost function Resolve(r: Replies): Known {
    map a | a in r.Keys + Reported(r) :: if a in r then Info(r[a], true) else Info([], false)
  }

  /** The neighbour lists alone. */
  function Lists(k: Known): Replies {
    map a | a in k :: k[a].neighbours
  }

  function Reset(k: Known): Known {
    map a | a in k :: k[a].(queried := false)
  }

  /** Does the round find more peers than are known? Only then does its result replace them. */
  ghost predicate Grows(k: Known, r: Replies) {
    |Resolve(r)| > |k|
  }

  ghost function Round(k: Known, r: Replies): Known {
    if Grows(k, r) then Resolve(r) else Reset(k)
  }

  // ------------------------------------------------------------ the connectivity gate

  /** The value `getMinPeerConnectivity` computes. */
  ghost predicate IsMinConnectivity(k: Known, v: nat) {
    && v <= |k|
    && (forall a :: a in k && k[a].queried && k[a].neighbours != [] ==> v <= |k[a].neighbours|)
    && (v == |k| || exists a :: a in k && k[a].queried && k[a].neighbours != [] && v == |k[a].neighbours|)
  }

  ghost predicate GateOpen(k: Known, minPeers: int, minConn: int) {
    && |k| >= minPeers && |k| >= minConn
    && forall a :: a in k && k[a].queried && k[a].neighbours != [] ==> |k[a].neighbours| >= minConn
  }

  lemma GateByMinimum(k: Known, v: nat, minPeers: int, minConn: int)
    requires IsMinConnectivity(k, v)
    ensures GateOpen(k, minPeers, minConn) <==> |k| >= minPeers && v >= minConn
  {
  }

  // ------------------------------------------------------------ the crawl over all rounds

  datatype Crawled = Crawled(known: Known, edges: set<(Addr, Addr)>)

  datatype Outcome = Found(state: Crawled) | Failed | Searching(state: Crawled)

  ghost function Edges(r: Replies): set<(Addr, Addr)> {
    set a, b | a in r && b in r[a] :: (a, b)
  }

  ghost function Step(s: Crawled, net: Replies): Crawled {
    var r := RepliesOf(s.known, net);
    Crawled(Round(s.known, r), s.edges + Edges(r))
  }

  // ------------------------------------------------------------ a round, exactly

  /** What is heard of in a round: the known peers that answer, and all addresses that they list. */
  ghost function Heard(k: Known, net: Replies): set<Addr> {
    (set a | a in k && a in net) + (set a, b | a in k && a in net && b in net[a] :: b)
  }

  lemma HeardIsResolved(k: Known, net: Replies)
    ensures Resolve(RepliesOf(k, net)).Keys == Heard(k, net) && |Resolve(RepliesOf(k, net))| == |Heard(k, net)|
  {
    var r := RepliesOf(k, net);
    forall b | b in Heard(k, net) ensures b in Resolve(r) {
      if !(b in k && b in net) {
        var a :| a in k && a in net && b in net[a];
        assert a in r && b in r[a];
      }
    }
    forall b | b in Resolve(r) ensures b in Heard(k, net) {
      if b !in r {
        var a :| a in r && b in r[a];
      }
    }
    assert |Resolve(r)| == |Resolve(r).Keys|;
  }

  lemma ResetSize(k: Known)
    ensures Reset(k).Keys == k.Keys && |Reset(k)| == |k|
  {
    assert Reset(k).Keys == k.Keys;
    assert |Reset(k)| == |Reset(k).Keys| == |k.Keys| == |k|;
  }

  /**
   * If more peers are heard of than are known, they become the known ones, and those that answered are known with their
   * lists as successfully queried. Otherwise the known ones stay, none of them as successfully queried.
   */
  lemma RoundExactly(s: Crawled, net: Replies)
    ensures var k, k' := s.known, Step(s, net).known;
      && (|Heard(k, net)| > |k| ==>
            && k'.Keys == Heard(k, net) && |k'| == |Heard(k, net)|
            && forall a :: a in k' ==> k'[a] == if a in k && a in net then Info(net[a], true) else Info([], false))
      && (|Heard(k, net)| <= |k| ==>
            && k'.Keys == k.Keys && |k'| == |k|
            && forall a :: a in k' ==> k'[a] == Info(k[a].neighbours, false))
  {
    HeardIsResolved(s.known, net);
    ResetSize(s.known);
    hide Heard;
  }

  /** All known peers that answer with any neighbours list enough of them. */
  ghost predicate WellConnected(k: Known, net: Replies, minConn: int) {
    forall a :: a in k && a in net && net[a] != [] ==> |net[a]| >= minConn
  }

  /**
   * The gate, exactly. In a round that hears of more peers than are known, every peer that answered with neighbours must
   * have enough of them. In a round that does not, the answers play no part: only the number of known peers is compared
   * with the required connectivity.
   */
  lemma GateExactly(s: Crawled, net: Replies, minPeers: int, minConn: int)
    ensures var k, n := s.known, |Heard(s.known, net)|;
      var open := GateOpen(Step(s, net).known, minPeers, minConn);
      && (n > |k| ==> (open <==> n >= minPeers && n >= minConn && WellConnected(k, net, minConn)))
      && (n <= |k| ==> (open <==> |k| >= minPeers && |k| >= minConn))
  {
    var k, k' := s.known, Step(s, net).known;
    RoundExactly(s, net);
    if |Heard(k, net)| > |k| {
      assert forall a :: a in k && a in net ==> a in Heard(k, net) && a in k';
    }
    hide Heard, Step;
  }

  /** The compared value of a round that hears of no more peers than are known is their number, whatever was answered. */
  lemma StalledMinimum(s: Crawled, net: Replies, v: nat)
    requires |Heard(s.known, net)| <= |s.known|
    ensures IsMinConnectivity(Step(s, net).known, v) <==> v == |s.known|
  {
    RoundExactly(s, net);
    hide Step, Heard;
  }

  /** If every known peer answers, all of them stay known, and every address that any of them lists becomes known. */
  lemma AllAnswersAreHeard(s: Crawled, net: Replies)
    requires s.known.Keys <= net.Keys
    ensures s.known.Keys <= Step(s, net).known.Keys
    ensures forall a, b :: a in s.known && b in net[a] ==> b in Step(s, net).known
  {
    var k := s.known;
    RoundExactly(s, net);
    assert k.Keys <= Heard(k, net);
    SubsetCardinality(k.Keys, Heard(k, net));
    assert |k.Keys| == |k|;
    forall a, b | a in k && b in net[a] ensures b in Step(s, net).known {
      assert b in Heard(k, net);
    }
  }

  /** The state after `n` rounds in which the network answers alike. */
  ghost function Repeat(s: Crawled, net: Replies, n: nat): Crawled {
    if n == 0 then s else Step(Repeat(s, net, n - 1), net)
  }

  /** From `p[0]` along reported neighbours. */
  ghost predicate IsChain(p: seq<Addr>, net: Replies) {
    p != [] && forall i :: 0 <= i < |p| - 1 ==> p[i] in net && p[i + 1] in net[p[i]]
  }

  /** Every address that is listed answers. */
  ghost predicate Closed(net: Replies) {
    forall a, b :: a in net && b in net[a] ==> b in net
  }

  lemma RoundAnswers(s: Crawled, net: Replies)
    requires s.known.Keys <= net.Keys && Closed(net)
    ensures Step(s, net).known.Keys <= net.Keys
  {
    RoundExactly(s, net);
    assert Heard(s.known, net) <= net.Keys;
    hide Step, Heard;
  }

  /** In a network whose reachable peers all answer, only peers that answer are ever known. */
  lemma {:induction false} KnownAnswer(s: Crawled, net: Replies, n: nat)
    requires s.known.Keys <= net.Keys && Closed(net)
    ensures Repeat(s, net, n).known.Keys <= net.Keys
  {
    if n > 0 {
      hide Step, Closed;
      KnownAnswer(s, net, n - 1);
      RoundAnswers(Repeat(s, net, n - 1), net);
    }
  }

  /**
   * Discovery: in a network whose peers all answer, every peer that is at most `n` hops from a supplied one is known
   * after `n` rounds.
   */
  lemma {:induction false} CrawlDiscovers(s: Crawled, net: Replies, n: nat, p: seq<Addr>)
    requires s.known.Keys <= net.Keys && Closed(net)
    requires IsChain(p, net) && p[0] in s.known && |p| <= n + 1
    ensures p[|p| - 1] in Repeat(s, net, n).known
    decreases n
  {
    hide Step, Closed;
    if n > 0 {
      var t := Repeat(s, net, n - 1);
      KnownAnswer(s, net, n - 1);
      AllAnswersAreHeard(t, net);
      if |p| == 1 {
        CrawlDiscovers(s, net, n - 1, p);
      } else {
        var q := p[..|p| - 1];
        assert IsChain(q, net);
        CrawlDiscovers(s, net, n - 1, q);
        assert p[|p| - 1] in net[q[|q| - 1]];
      }
    }
  }

  // ------------------------------------------------------------ the rounds

  ghost function CrawlFrom(s: Crawled, rounds: seq<RoundEnv>, minPeers: int, minConn: int): Outcome
    decreases |rounds|
  {
    if rounds == [] then Searching(s)
    else match rounds[0]
      case RoundFails => Failed
      case Answers(net) =>
        var s' := Step(s, net);
        if GateOpen(s'.known, minPeers, minConn) then Found(s') else CrawlFrom(s', rounds[1..], minPeers, minConn)
  }

  function Fresh(addrs: set<Addr>): Known {
    map a | a in addrs :: Info([], false)
  }

  ghost predicate IsPath(p: seq<Addr>, supplied: set<Addr>, edges: set<(Addr, Addr)>, a: Addr) {
    && p != [] && p[0] in supplied && p[|p| - 1] == a
    && forall i :: 0 <= i < |p| - 1 ==> (p[i], p[i + 1]) in edges
  }

  /** From a supplied peer through reports of peers that were successfully queried. */
  ghost predicate Reachable(supplied: set<Addr>, edges: set<(Addr, Addr)>, a: Addr) {
    exists p :: IsPath(p, supplied, edges, a)
  }

  ghost predicate Sound(supplied: set<Addr>, s: Crawled) {
    forall a :: a in s.known ==> Reachable(supplied, s.edges, a)
  }

  lemma ReachableGrows(supplied: set<Addr>, edges: set<(Addr, Addr)>, more: set<(Addr, Addr)>, a: Addr)
    requires Reachable(supplied, edges, a)
    ensures Reachable(supplied, edges + more, a)
  {
    var p :| IsPath(p, supplied, edges, a);
    assert IsPath(p, supplied, edges + more, a);
  }

  lemma ReachableNext(supplied: set<Addr>, edges: set<(Addr, Addr)>, a: Addr, b: Addr)
    requires Reachable(supplied, edges, a) && (a, b) in edges
    ensures Reachable(supplied, edges, b)
  {
    var p :| IsPath(p, supplied, edges, a);
    assert IsPath(p + [b], supplied, edges, b);
  }

  lemma StepSound(supplied: set<Addr>, s: Crawled, net: Replies)
    requires Sound(supplied, s)
    ensures Sound(supplied, Step(s, net)) && |Step(s, net).known| >= |s.known|
  {
    var r := RepliesOf(s.known, net);
    var s' := Step(s, net);
    forall a | a in s'.known ensures Reachable(supplied, s'.edges, a) {
      if a in s.known {
        ReachableGrows(supplied, s.edges, Edges(r), a);
      } else {
        var from :| from in r && a in r[from];
        ReachableGrows(supplied, s.edges, Edges(r), from);
        assert (from, a) in Edges(r);
        ReachableNext(supplied, s'.edges, from, a);
      }
    }
    assert Reset(s.known).Keys == s.known.Keys;
    assert |Reset(s.known)| == |Reset(s.known).Keys| == |s.known.Keys| == |s.known|;
  }

  lemma FreshSound(supplied: set<Addr>)
    ensures Sound(supplied, Crawled(Fresh(supplied), {}))
  {
    forall a | a in supplied ensures Reachable(supplied, {}, a) {
      assert IsPath([a], supplied, {}, a);
    }
  }

  /** Crawl soundness over all rounds: nothing unreachable is ever known, and the number of known peers never shrinks. */
  lemma {:induction false} CrawlSound(supplied: set<Addr>, s: Crawled, rounds: seq<RoundEnv>, minPeers: int, minConn: int)
    requires Sound(supplied, s)
    ensures var o := CrawlFrom(s, rounds, minPeers, minConn);
      !o.Failed? ==> Sound(supplied, o.state) && |o.state.known| >= |s.known| && s.edges <= o.state.edges
    ensures var o := CrawlFrom(s, rounds, minPeers, minConn);
      o.Found? ==> GateOpen(o.state.known, minPeers, minConn)
    decreases |rounds|
  {
    if rounds != [] && rounds[0].Answers? {
      StepSound(supplied, s, rounds[0].net);
      CrawlSound(supplied, Step(s, rounds[0].net), rounds[1..], minPeers, minConn);
    }
  }

  /** From the supplied peers on: whatever a crawl finds is reachable, and is at least as many as were supplied. */
  lemma FoundPeersReachable(supplied: set<Addr>, rounds: seq<RoundEnv>, minPeers: int, minConn: int)
    ensures var o := CrawlFrom(Crawled(Fresh(supplied), {}), rounds, minPeers, minConn);
      o.Found? ==>
        && (forall a :: a in o.state.known ==> Reachable(supplied, o.state.edges, a))
        && |o.state.known| >= |supplied| && |o.state.known| >= minPeers
  {
    FreshSound(supplied);
    CrawlSound(supplied, Crawled(Fresh(supplied), {}), rounds, minPeers, minConn);
    assert |Fresh(supplied)| == |Fresh(supplied).Keys| && Fresh(supplied).Keys == supplied;
  }

  /** Two supplied peers that know only each other end a crawl that asks for two connections each. */
  lemma ConnectivityNotEnforced(g: string, h: string)
    requires g != h
    ensures var a, b := PeerAddr(g), PeerAddr(h);
      var r: Replies := map[a := [b], b := [a]];
      CrawlFrom(Crawled(Fresh({a, b}), {}), [Answers(r)], 2, 2).Found? && !WellConnected(Fresh({a, b}), r, 2)
  {
    if PeerAddr(g) == PeerAddr(h) {
      PeerAddrInjective(g, h);
    }
    StalledPair(PeerAddr(g), PeerAddr(h));
  }

  lemma StalledPair(a: Addr, b: Addr)
    requires a != b
    ensures var s, r: Replies := Crawled(Fresh({a, b}), {}), map[a := [b], b := [a]];
      GateOpen(Step(s, r).known, 2, 2) && !WellConnected(s.known, r, 2)
  {
    var s, r: Replies := Crawled(Fresh({a, b}), {}), map[a := [b], b := [a]];
    var k := s.known;
    assert k.Keys == {a, b} && |k| == |k.Keys| == 2;
    assert r[a] == [b] && r[b] == [a];
    assert Heard(k, r) <= {a, b};
    SubsetCardinality(Heard(k, r), {a, b});
    GateExactly(s, r, 2, 2);
    hide Heard, Step;
    assert a in k && a in r && |r[a]| == 1;
  }

  // ------------------------------------------------------------ endpoint selection

  function Endpoint(host: string): string {
    "ws://" + host + ":26657/websocket"
  }

  lemma EndpointInjective(g: string, h: string)
    requires Endpoint(g) == Endpoint(h)
    ensures g == h
  {
    var pre, post := "ws://", ":26657/websocket";
    assert g == Endpoint(g)[|pre|..|Endpoint(g)| - |post|];
    assert h == Endpoint(h)[|pre|..|Endpoint(h)| - |post|];
  }

  function Eligible(supplied: set<Addr>, known: set<Addr>, selection: string): set<Addr> {
    if selection == "supplied" then known * supplied
    else if selection == "discovered" then known - supplied
    else known
  }

  /** Every known address is canonical: it is the rendering of a host that URL parsing recovers. */
  ghost predicate Canonical(known: set<Addr>, hostOf: Addr -> Option<string>) {
    forall a :: a in known ==> hostOf(a).Some? && a == PeerAddr(hostOf(a).value)
  }

  /** A selection of the right size, without duplicates, of endpoints of eligible peers. */
  ghost predicate GoodSelection(result: seq<string>, eligible: set<Addr>, cap: int, hostOf: Addr -> Option<string>) {
    && (forall i, j :: 0 <= i < j < |result| ==> result[i] != result[j])
    && (forall e :: e in result ==> exists a :: a in eligible && hostOf(a).Some? && e == Endpoint(hostOf(a).value))
    && |result| == if cap > 0 && cap < |eligible| then cap else |eligible|
  }

  /** What the three selections mean: a "supplied" one offers supplied peers only, a "discovered" one none of them. */
  lemma SelectedAsAsked(supplied: set<Addr>, known: set<Addr>, selection: string, cap: int, hostOf: Addr -> Option<string>,
                        result: seq<string>, e: string)
    requires GoodSelection(result, Eligible(supplied, known, selection), cap, hostOf) && e in result
    ensures exists a :: a in known && hostOf(a).Some? && e == Endpoint(hostOf(a).value)
                        && (selection == "supplied" ==> a in supplied) && (selection == "discovered" ==> a !in supplied)
  {
    hide Endpoint;
    var a :| a in Eligible(supplied, known, selection) && hostOf(a).Some? && e == Endpoint(hostOf(a).value);
  }

  /** How many: all known peers of the kind that was asked for, or the cap if that is positive and less. */
  lemma SelectedAsMany(supplied: set<Addr>, known: set<Addr>, selection: string, cap: int, hostOf: Addr -> Option<string>,
                       result: seq<string>)
    requires GoodSelection(result, Eligible(supplied, known, selection), cap, hostOf)
    ensures var kind := set a | a in known && (selection == "supplied" ==> a in supplied)
                                  && (selection == "discovered" ==> a !in supplied);
      |result| == if cap > 0 && cap < |kind| then cap else |kind|
  {
    var kind := set a | a in known && (selection == "supplied" ==> a in supplied)
                        && (selection == "discovered" ==> a !in supplied);
    assert kind == Eligible(supplied, known, selection);
  }

  /** An uncapped selection returns the endpoints of all eligible peers. */
  lemma UncappedIsAll(result: seq<string>, eligible: set<Addr>, hostOf: Addr -> Option<string>)
    requires Canonical(eligible, hostOf) && GoodSelection(result, eligible, 0, hostOf)
    ensures forall e :: e in result <==> Offers(eligible, hostOf, e)
    ensures |result| == |eligible|
  {
    var f := (a: Addr) => if hostOf(a).Some? then Endpoint(hostOf(a).value) else "";
    var all, got := Image(eligible, f), set e | e in result;
    hide Endpoint;
    DistinctSize(result);
    ImageSize(eligible, f);
    forall e | e in got ensures e in all {
      var a :| a in eligible && hostOf(a).Some? && e == Endpoint(hostOf(a).value);
      assert f(a) == e;
    }
    SubsetCardinality(got, all);
    forall a | a in eligible ensures f(a) in result {
      assert f(a) in all;
    }
  }

  /**
   * Without a cap, the endpoints selected as "supplied" and those selected as "discovered" partition those selected as
   * "any", whatever the map orders in the three selections were.
   */
  lemma SelectionsPartition(supplied: set<Addr>, known: set<Addr>, hostOf: Addr -> Option<string>,
                            ss: seq<string>, ds: seq<string>, all: seq<string>)
    requires Canonical(known, hostOf)
    requires GoodSelection(ss, Eligible(supplied, known, "supplied"), 0, hostOf)
    requires GoodSelection(ds, Eligible(supplied, known, "discovered"), 0, hostOf)
    requires GoodSelection(all, Eligible(supplied, known, "any"), 0, hostOf)
    ensures forall e :: e in all <==> e in ss || e in ds
    ensures forall e :: !(e in ss && e in ds)
    ensures |all| == |ss| + |ds|
  {
    hide Eligible, GoodSelection, Offers, Canonical;
    var s, d := Eligible(supplied, known, "supplied"), Eligible(supplied, known, "discovered");
    EligibleParts(supplied, known);
    CanonicalParts(s, d, hostOf);
    UncappedIsAll(ss, s, hostOf);
    UncappedIsAll(ds, d, hostOf);
    UncappedIsAll(all, known, hostOf);
    DisjointEndpoints(s, d, hostOf);
    OffersUnion(s, d, hostOf);
  }

  lemma EligibleParts(supplied: set<Addr>, known: set<Addr>)
    ensures var s, d := Eligible(supplied, known, "supplied"), Eligible(supplied, known, "discovered");
      Eligible(supplied, known, "any") == known == s + d && s !! d && |known| == |s| + |d|
  {
    var s, d := Eligible(supplied, known, "supplied"), Eligible(supplied, known, "discovered");
    assert known == s + d;
    assert |s + d| == |s| + |d|;
  }

  lemma CanonicalParts(s: set<Addr>, d: set<Addr>, hostOf: Addr -> Option<string>)
    requires Canonical(s + d, hostOf)
    ensures Canonical(s, hostOf) && Canonical(d, hostOf)
  {
  }

  /** Some eligible peer has this endpoint. */
  ghost predicate Offers(eligible: set<Addr>, hostOf: Addr -> Option<string>, e: string) {
    exists a :: a in eligible && hostOf(a).Some? && e == Endpoint(hostOf(a).value)
  }

  lemma OffersUnion(s: set<Addr>, d: set<Addr>, hostOf: Addr -> Option<string>)
    ensures forall e :: Offers(s + d, hostOf, e) <==> Offers(s, hostOf, e) || Offers(d, hostOf, e)
  {
    hide Endpoint;
  }

  lemma DisjointEndpoints(s: set<Addr>, d: set<Addr>, hostOf: Addr -> Option<string>)
    requires Canonical(s, hostOf) && Canonical(d, hostOf) && s !! d
    ensures forall e :: !(Offers(s, hostOf, e) && Offers(d, hostOf, e))
  {
    hide Endpoint, PeerAddr;
    if e :| Offers(s, hostOf, e) && Offers(d, hostOf, e) {
      var a :| a in s && hostOf(a).Some? && e == Endpoint(hostOf(a).value);
      var b :| b in d && hostOf(b).Some? && e == Endpoint(hostOf(b).value);
      EndpointInjective(hostOf(a).value, hostOf(b).value);
      assert false;
    }
  }
}
