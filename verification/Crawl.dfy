/** The peer crawl on heap-allocated records, in whatever order Go visits its maps and the answers arrive. */
module Crawl {
  import opened Basics
  import opened CrawlModel

  class PeerInfo {
    const addr: Addr
    var peerAddrs: seq<Addr>
    var successfullyQueried: bool

    constructor (addr: Addr, peerAddrs: seq<Addr>, successfullyQueried: bool)
      ensures this.addr == addr && this.peerAddrs == peerAddrs && this.successfullyQueried == successfullyQueried
    {
      this.addr, this.peerAddrs, this.successfullyQueried := addr, peerAddrs, successfullyQueried;
    }
  }

  type Peers = map<Addr, PeerInfo>

  /** Every record stands under its own address. */
  ghost predicate Keyed(m: Peers) {
    forall a :: a in m ==> m[a].addr == a
  }

  ghost function View(m: Peers): (k: Known)
    reads m.Values
    ensures k.Keys == m.Keys && |k| == |m|
  {
    var k := map a | a in m :: Info(m[a].peerAddrs, m[a].successfullyQueried);
    assert k.Keys == m.Keys && |k| == |k.Keys| && |m| == |m.Keys|;
    k
  }

  ghost function Listed(addrs: seq<Addr>): set<Addr> {
    set b | b in addrs
  }

  /** Adds an empty record for every reported address that has none yet. */
  method AddStubs(result: Peers, addrs: seq<Addr>) returns (r: Peers)
    requires Keyed(result)
    ensures Keyed(r)
    ensures r.Keys == result.Keys + Listed(addrs)
    ensures forall a :: a in result ==> r[a] == result[a]
    ensures forall a :: a in r && a !in result ==>
              fresh(r[a]) && r[a].peerAddrs == [] && !r[a].successfullyQueried
  {
    r := result;
    var i := 0;
    while i < |addrs|
      invariant 0 <= i <= |addrs| && Keyed(r)
      invariant r.Keys == result.Keys + Listed(addrs[..i])
      invariant forall a :: a in result ==> r[a] == result[a]
      invariant forall a :: a in r && a !in result ==>
                  fresh(r[a]) && r[a].peerAddrs == [] && !r[a].successfullyQueried
    {
      if addrs[i] !in r {
        var stub := new PeerInfo(addrs[i], [], false);
        r := r[addrs[i] := stub];
      }
      assert addrs[..i + 1] == addrs[..i] + [addrs[i]];
      i := i + 1;
    }
    assert addrs[..i] == addrs;
  }

  ghost predicate StubOf(p: PeerInfo)
    reads p
  {
    p.peerAddrs == [] && !p.successfullyQueried
  }

  /** One visited peer: its own record replaces whatever stub stands at its address. */
  method AddPeer(result: Peers, peer: PeerInfo) returns (r: Peers)
    requires Keyed(result)
    ensures Keyed(r)
    ensures r.Keys == result.Keys + {peer.addr} + Listed(peer.peerAddrs)
    ensures r[peer.addr] == peer
    ensures forall a :: a in result && a != peer.addr ==> r[a] == result[a]
    ensures forall a :: a in r && a !in result && a != peer.addr ==> fresh(r[a]) && StubOf(r[a])
  {
    r := AddStubs(result[peer.addr := peer], peer.peerAddrs);
  }

  lemma KeyedAt(m: Peers, a: Addr)
    requires Keyed(m) && a in m
    ensures m[a].addr == a
  {
  }

  lemma KeysStep(done: set<Addr>, reported: set<Addr>, a: Addr, listed: set<Addr>)
    ensures (done + reported) + {a} + listed == (done + {a}) + (reported + listed)
  {
  }

  /** The loop over the map; `lists` are the neighbour lists of its records. */
  method AddPeers(peers: Peers, ghost lists: Replies) returns (result: Peers)
    requires Keyed(peers) && lists.Keys == peers.Keys
    requires forall a :: a in peers ==> peers[a].peerAddrs == lists[a]
    ensures Keyed(result)
    ensures result.Keys == peers.Keys + Reported(lists)
    ensures forall a :: a in peers ==> result[a] == peers[a]
    ensures forall a :: a in result && a !in peers ==> fresh(result[a]) && StubOf(result[a])
  {
    result := map[];
    var left := peers.Keys;
    ghost var done: Replies := map[];
    assert Reported(done) == {};
    assert Keyed(result);
    hide Reported, Listed, StubOf, Keyed;
    while left != {}
      invariant left <= peers.Keys && done.Keys == peers.Keys - left
      invariant forall a :: a in done ==> done[a] == lists[a]
      invariant Keyed(result)
      invariant result.Keys == done.Keys + Reported(done)
      invariant forall a :: a in done ==> result[a] == peers[a]
      invariant forall a :: a in result && a !in done ==> fresh(result[a]) && StubOf(result[a])
      decreases left
    {
      var addr :| addr in left;
      left := left - {addr};
      KeyedAt(peers, addr);
      KeysStep(done.Keys, Reported(done), addr, Listed(lists[addr]));
      ReportedInsert(done, addr, lists[addr]);
      result := AddPeer(result, peers[addr]);
      done := done[addr := lists[addr]];
    }
    assert done == lists;
  }

  /**
   * Independent of the order in which the map is visited: queried peers keep their own record, even when a stub was
   * made for them before their turn came; only addresses that did not answer end up with a stub.
   */
  method ResolvePeerMap(peers: Peers) returns (result: Peers)
    requires Keyed(peers)
    ensures Keyed(result)
    ensures result.Keys == peers.Keys + Reported(Lists(View(peers)))
    ensures forall a :: a in peers ==> result[a] == peers[a]
    ensures forall a :: a in result && a !in peers ==> fresh(result[a]) && StubOf(result[a])
  {
    result := AddPeers(peers, Lists(View(peers)));
  }

  lemma ReportedInsert(r: Replies, a: Addr, bs: seq<Addr>)
    requires a !in r
    ensures Reported(r[a := bs]) == Reported(r) + Listed(bs)
  {
    var r' := r[a := bs];
    forall b | b in Reported(r) + Listed(bs) ensures b in Reported(r') {
      if b in bs {
        assert a in r' && b in r'[a];
      } else {
        var x :| x in r && b in r[x];
        assert x in r' && b in r'[x];
      }
    }
  }

  /** The answers of a round, in their order of arrival, each in a new record. */
  method Collect(peers: Peers, net: Replies) returns (received: Peers)
    requires Keyed(peers)
    ensures Keyed(received)
    ensures received.Keys == peers.Keys * net.Keys
    ensures forall a :: a in received ==>
              fresh(received[a]) && received[a].peerAddrs == net[a] && received[a].successfullyQueried
  {
    received := map[];
    var left := peers.Keys;
    while left != {}
      invariant left <= peers.Keys && Keyed(received)
      invariant received.Keys == (peers.Keys - left) * net.Keys
      invariant forall a :: a in received ==>
                  fresh(received[a]) && received[a].peerAddrs == net[a] && received[a].successfullyQueried
      decreases left
    {
      var addr :| addr in left;
      left := left - {addr};
      if addr in net {
        var info := new PeerInfo(peers[addr].addr, net[addr], true);
        received := received[addr := info];
      }
    }
  }

  lemma ResolvedView(known: Known, net: Replies, received: Known, resolved: Known)
    requires received == map a | a in RepliesOf(known, net) :: Info(net[a], true)
    requires resolved.Keys == received.Keys + Reported(Lists(received))
    requires forall a :: a in received ==> resolved[a] == received[a]
    requires forall a :: a in resolved && a !in received ==> resolved[a] == Info([], false)
    ensures resolved == Resolve(RepliesOf(known, net))
  {
    assert Lists(received) == RepliesOf(known, net);
  }

  lemma CollectedView(received: Peers, net: Replies, known: Known)
    requires received.Keys == known.Keys * net.Keys
    requires forall a :: a in received ==> received[a].peerAddrs == net[a] && received[a].successfullyQueried
    ensures View(received) == map a | a in RepliesOf(known, net) :: Info(net[a], true)
  {
  }

  method AnswersOf(peers: Peers, net: Replies, ghost known: Known) returns (resolved: Peers)
    requires Keyed(peers) && known.Keys == peers.Keys
    ensures Keyed(resolved) && View(resolved) == Resolve(RepliesOf(known, net))
    ensures forall a :: a in resolved ==> fresh(resolved[a])
  {
    hide Reported, Resolve, Lists;
    var received := Collect(peers, net);
    resolved := ResolvePeerMap(received);
    CollectedView(received, net, known);
    ResolvedView(known, net, View(received), View(resolved));
  }

  /**
   * One round. The caller's records are reset in place, whatever happens; answers go into new records, collected in
   * their order of arrival.
   */
  method GetNetworkPeers(peers: Peers, env: RoundEnv) returns (r: Option<Peers>)
    requires Keyed(peers)
    modifies peers.Values
    ensures View(peers) == Reset(old(View(peers)))
    ensures r.None? <==> env.RoundFails?
    ensures r.Some? ==> Keyed(r.value) && View(r.value) == Resolve(RepliesOf(old(View(peers)), env.net))
    ensures r.Some? ==> forall a :: a in r.value ==> fresh(r.value[a])
  {
    hide Resolve, RepliesOf;
    ghost var before := View(peers);
    ResetAll(peers);
    if env.RoundFails? {
      return None;
    }
    var resolved := AnswersOf(peers, env.net, before);
    r := Some(resolved);
  }

  method ResetAll(peers: Peers)
    requires Keyed(peers)
    modifies peers.Values
    ensures View(peers) == Reset(old(View(peers)))
  {
    var left := peers.Keys;
    while left != {}
      invariant left <= peers.Keys
      invariant forall a :: a in peers ==> peers[a].peerAddrs == old(peers[a].peerAddrs)
      invariant forall a :: a in peers && a !in left ==> !peers[a].successfullyQueried
      decreases left
    {
      var addr :| addr in left;
      left := left - {addr};
      peers[addr].successfullyQueried := false;
    }
    assert View(peers) == Reset(old(View(peers)));
  }

  method GetMinPeerConnectivity(peers: Peers) returns (minPeers: nat)
    ensures IsMinConnectivity(View(peers), minPeers)
  {
    minPeers := |peers|;
    var left := peers.Keys;
    while left != {}
      invariant left <= peers.Keys
      invariant minPeers <= |peers|
      invariant forall a :: a in peers && a !in left && peers[a].successfullyQueried && peers[a].peerAddrs != [] ==>
                  minPeers <= |peers[a].peerAddrs|
      invariant minPeers == |peers| || exists a :: a in peers && peers[a].successfullyQueried && peers[a].peerAddrs != []
                                                && minPeers == |peers[a].peerAddrs|
      decreases left
    {
      var addr :| addr in left;
      left := left - {addr};
      if peers[addr].successfullyQueried {
        var peerCount := |peers[addr].peerAddrs|;
        if peerCount > 0 && peerCount < minPeers {
          minPeers := peerCount;
        }
      }
    }
    ghost var k := View(peers);
    assert forall a :: a in peers ==> k[a] == Info(peers[a].peerAddrs, peers[a].successfullyQueried);
  }

  /** `result` renders the `chosen` addresses, which are distinct and exactly the eligible ones among those visited. */
  ghost predicate Rendered(result: seq<string>, chosen: seq<Addr>, visited: set<Addr>, hostOf: Addr -> Option<string>) {
    && |chosen| == |result|
    && (forall i :: 0 <= i < |chosen| ==>
          hostOf(chosen[i]).Some? && result[i] == Endpoint(hostOf(chosen[i]).value))
    && (forall i, j :: 0 <= i < j < |chosen| ==> chosen[i] != chosen[j])
    && (set a | a in chosen) == visited
  }

  lemma RenderOne(result: seq<string>, chosen: seq<Addr>, visited: set<Addr>, a: Addr, hostOf: Addr -> Option<string>)
    requires Rendered(result, chosen, visited, hostOf) && a !in visited && hostOf(a).Some?
    ensures Rendered(result + [Endpoint(hostOf(a).value)], chosen + [a], visited + {a}, hostOf)
  {
    assert forall i :: 0 <= i < |chosen| ==> chosen[i] in (set x | x in chosen);
    assert (set x | x in chosen + [a]) == (set x | x in chosen) + {a};
  }

  predicate Selects(selection: string, supplied: set<Addr>, a: Addr) {
    if selection == "supplied" then a in supplied
    else if selection == "discovered" then a !in supplied
    else true
  }

  /** Fails when an address that is visited does not parse; otherwise selects eligible endpoints up to the cap. */
  method FilterPeerMap(supplied: set<Addr>, known: set<Addr>, selection: string, maxCount: int,
                       hostOf: Addr -> Option<string>)
    returns (r: Result<seq<string>, ()>)
    ensures r.Err? ==> exists a :: a in known && hostOf(a).None?
    ensures maxCount <= 0 && (exists a :: a in known && hostOf(a).None?) ==> r.Err?
    ensures Canonical(known, hostOf) ==>
              r.Ok? && GoodSelection(r.value, Eligible(supplied, known, selection), maxCount, hostOf)
  {
    var result: seq<string> := [];
    var left := known;
    ghost var chosen: seq<Addr> := [];
    ghost var eligible := Eligible(supplied, known, selection);
    assert forall a :: a in known ==> (a in eligible <==> Selects(selection, supplied, a));
    hide Eligible, GoodSelection, Endpoint, Rendered, Canonical;
    RenderNone(hostOf);
    assert eligible - left == {};
    while left != {}
      invariant left <= known
      invariant forall a :: a in known && a !in left ==> hostOf(a).Some?
      invariant Rendered(result, chosen, eligible - left, hostOf)
      invariant maxCount > 0 ==> |result| < maxCount
      decreases left
    {
      var peerAddr :| peerAddr in left;
      if hostOf(peerAddr).None? {
        return Err(());
      }
      VisitOne(eligible, left, peerAddr);
      if Selects(selection, supplied, peerAddr) {
        RenderOne(result, chosen, eligible - left, peerAddr, hostOf);
        result, chosen := result + [Endpoint(hostOf(peerAddr).value)], chosen + [peerAddr];
      }
      left := left - {peerAddr};
      if maxCount > 0 && |result| >= maxCount {
        break;
      }
    }
    if Canonical(known, hostOf) {
      SelectionIsGood(result, chosen, eligible - left, eligible, maxCount, hostOf);
    }
    return Ok(result);
  }

  lemma VisitOne(eligible: set<Addr>, left: set<Addr>, a: Addr)
    requires a in left
    ensures eligible - (left - {a}) == if a in eligible then eligible - left + {a} else eligible - left
  {
  }

  lemma RenderNone(hostOf: Addr -> Option<string>)
    ensures Rendered([], [], {}, hostOf)
  {
  }

  lemma SelectionIsGood(result: seq<string>, chosen: seq<Addr>, visited: set<Addr>, eligible: set<Addr>, cap: int,
                        hostOf: Addr -> Option<string>)
    requires Rendered(result, chosen, visited, hostOf) && visited <= eligible && Canonical(visited, hostOf)
    requires visited == eligible || (cap > 0 && |result| == cap)
    requires cap > 0 ==> |result| <= cap
    ensures GoodSelection(result, eligible, cap, hostOf)
  {
    DistinctSize(chosen);
    SubsetCardinality(visited, eligible);
    forall i, j | 0 <= i < j < |result| ensures result[i] != result[j] {
      assert chosen[i] in visited && chosen[j] in visited;
      if result[i] == result[j] {
        EndpointInjective(hostOf(chosen[i]).value, hostOf(chosen[j]).value);
        assert false;
      }
    }
    forall e | e in result ensures exists a :: a in eligible && hostOf(a).Some? && e == Endpoint(hostOf(a).value) {
      var i :| 0 <= i < |result| && result[i] == e;
      assert chosen[i] in visited;
    }
  }

  /** The supplied peers, one record per resolved host; resolving may fail. */
  method Supply(hosts: seq<Option<string>>) returns (r: Option<Peers>)
    ensures r.None? <==> None in hosts
    ensures r.Some? ==> Keyed(r.value) && forall a :: a in r.value ==> fresh(r.value[a])
    ensures r.Some? ==> View(r.value) == Fresh(SuppliedAddrs(hosts)) && |r.value| == |HostNames(hosts)|
  {
    hide SuppliedAddrs, Fresh;
    SuppliedNone();
    var m: Peers := map[];
    var i := 0;
    while i < |hosts|
      invariant 0 <= i <= |hosts|
      invariant None !in hosts[..i]
      invariant m.Keys == SuppliedAddrs(hosts[..i]) && Keyed(m)
      invariant forall a :: a in m ==> fresh(m[a]) && StubOf(m[a])
    {
      if hosts[i].None? {
        return None;
      }
      assert hosts[..i + 1] == hosts[..i] + [hosts[i]];
      SuppliedAppend(hosts[..i], hosts[i].value);
      var addr := PeerAddr(hosts[i].value);
      var p := new PeerInfo(addr, [], false);
      m := m[addr := p];
      i := i + 1;
    }
    assert hosts[..i] == hosts;
    StubsAreFresh(m);
    OneRecordPerHost(m, hosts);
    return Some(m);
  }

  lemma StubsAreFresh(m: Peers)
    requires forall a :: a in m ==> StubOf(m[a])
    ensures View(m) == Fresh(m.Keys)
  {
  }

  lemma SuppliedNone()
    ensures SuppliedAddrs([]) == {}
  {
  }

  ghost function SuppliedAddrs(hosts: seq<Option<string>>): set<Addr> {
    set h | h in hosts && h.Some? :: PeerAddr(h.value)
  }

  ghost function HostNames(hosts: seq<Option<string>>): set<string> {
    set h | h in hosts && h.Some? :: h.value
  }

  /** Different hosts never share a record, and a host that is named twice has but one. */
  lemma OneRecordPerHost(m: Peers, hosts: seq<Option<string>>)
    requires m.Keys == SuppliedAddrs(hosts)
    ensures |m| == |HostNames(hosts)|
  {
    forall g, h | PeerAddr(g) == PeerAddr(h) ensures g == h {
      PeerAddrInjective(g, h);
    }
    var hs := HostNames(hosts);
    assert forall h :: h in hosts && h.Some? ==> h.value in hs;
    assert SuppliedAddrs(hosts) == Image(hs, PeerAddr) by {
      forall a | a in Image(hs, PeerAddr) ensures a in SuppliedAddrs(hosts) {
        var name :| name in hs && PeerAddr(name) == a;
        assert Some(name) in hosts;
      }
    }
    ImageSize(hs, PeerAddr);
    assert |m| == |m.Keys|;
  }

  lemma SuppliedAppend(hosts: seq<Option<string>>, host: string)
    ensures SuppliedAddrs(hosts + [Some(host)]) == SuppliedAddrs(hosts) + {PeerAddr(host)}
  {
    forall a | a in SuppliedAddrs(hosts) + {PeerAddr(host)} ensures a in SuppliedAddrs(hosts + [Some(host)]) {
      if a == PeerAddr(host) {
        assert Some(host) in hosts + [Some(host)];
      } else {
        var h :| h in hosts && h.Some? && a == PeerAddr(h.value);
        assert h in hosts + [Some(host)];
      }
    }
  }

  /** One round of the crawl: the result replaces the known peers only if it is larger. */
  method CrawlOnce(peers: Peers, env: RoundEnv, ghost state: Crawled) returns (r: Option<Peers>)
    requires Keyed(peers) && View(peers) == state.known
    modifies peers.Values
    ensures r.None? <==> env.RoundFails?
    ensures r.Some? ==> Keyed(r.value) && View(r.value) == Step(state, env.net).known
    ensures r.Some? ==> forall a :: a in r.value ==> fresh(r.value[a]) || (a in peers && r.value[a] == peers[a])
  {
    var newPeers := GetNetworkPeers(peers, env);
    if newPeers.None? {
      return None;
    }
    if |newPeers.value| > |peers| {
      return newPeers;
    }
    return Some(peers);
  }

  /** Rounds until the gate opens. Only the records in `peers` and new ones are ever touched. */
  method CrawlRounds(start: Peers, minDiscoveredPeers: int, minPeerConnectivity: int, rounds: seq<RoundEnv>)
    returns (r: Option<Peers>, ghost outcome: Outcome)
    requires Keyed(start)
    modifies start.Values
    ensures outcome == CrawlFrom(Crawled(old(View(start)), {}), rounds, minDiscoveredPeers, minPeerConnectivity)
    ensures r.Some? <==> outcome.Found?
    ensures r.Some? ==> Keyed(r.value) && View(r.value) == outcome.state.known
  {
    hide Keyed, GateOpen, IsMinConnectivity, Step;
    var peers := start;
    ghost var state := Crawled(View(start), {});
    outcome := CrawlFrom(state, rounds, minDiscoveredPeers, minPeerConnectivity);
    var n := 0;
    while n < |rounds|
      invariant 0 <= n <= |rounds|
      invariant Keyed(peers) && View(peers) == state.known
      invariant forall a :: a in peers ==> fresh(peers[a]) || peers[a] in start.Values
      invariant outcome == CrawlFrom(state, rounds[n..], minDiscoveredPeers, minPeerConnectivity)
    {
      assert rounds[n..][1..] == rounds[n + 1..];
      var next := CrawlOnce(peers, rounds[n], state);
      if next.None? {
        return None, outcome;
      }
      peers := next.value;
      state := Step(state, rounds[n].net);
      var connectivity := GetMinPeerConnectivity(peers);
      GateByMinimum(state.known, connectivity, minDiscoveredPeers, minPeerConnectivity);
      if |peers| >= minDiscoveredPeers && connectivity >= minPeerConnectivity {
        return Some(peers), outcome;
      }
      n := n + 1;
    }
    return None, outcome;
  }

  /** Crawling from copies of the supplied records, and selecting among what is found. */
  method CrawlAndSelect(suppliedPeers: Peers, selection: string, minDiscoveredPeers: int, minPeerConnectivity: int,
                        maxReturnedPeers: int, rounds: seq<RoundEnv>, hostOf: Addr -> Option<string>)
    returns (r: Result<seq<string>, ()>, ghost outcome: Outcome)
    requires Keyed(suppliedPeers)
    ensures outcome == CrawlFrom(Crawled(View(suppliedPeers), {}), rounds, minDiscoveredPeers, minPeerConnectivity)
    ensures r.Ok? ==> outcome.Found?
    ensures outcome.Found? && Canonical(outcome.state.known.Keys, hostOf) ==>
              r.Ok? && GoodSelection(r.value, Eligible(suppliedPeers.Keys, outcome.state.known.Keys, selection),
                                     maxReturnedPeers, hostOf)
  {
    hide CrawlFrom, GoodSelection, Eligible, Canonical;
    var peers := CopyAll(suppliedPeers);
    var found;
    found, outcome := CrawlRounds(peers, minDiscoveredPeers, minPeerConnectivity, rounds);
    if found.None? {
      r := Err(());
    } else {
      r := FilterPeerMap(suppliedPeers.Keys, found.value.Keys, selection, maxReturnedPeers, hostOf);
    }
  }

  /**
   * The whole crawl. `hosts` are the IPv4 addresses of the starting peers; `rounds` is what the network does. It selects
   * endpoints from what the value-level crawl finds, and leaves the supplied records as they were made.
   */
  method WaitForNetworkPeers(hosts: seq<Option<string>>, selection: string, minDiscoveredPeers: int,
                             minPeerConnectivity: int, maxReturnedPeers: int, rounds: seq<RoundEnv>,
                             hostOf: Addr -> Option<string>)
    returns (r: Result<seq<string>, ()>, ghost outcome: Outcome, ghost suppliedAfter: Known)
    ensures None in hosts ==> r.Err?
    ensures None !in hosts ==>
              && suppliedAfter == Fresh(SuppliedAddrs(hosts))
              && outcome == CrawlFrom(Crawled(suppliedAfter, {}), rounds, minDiscoveredPeers, minPeerConnectivity)
    ensures r.Ok? ==> None !in hosts && outcome.Found?
    ensures None !in hosts && outcome.Found? && Canonical(outcome.state.known.Keys, hostOf) ==>
              r.Ok? && GoodSelection(r.value, Eligible(SuppliedAddrs(hosts), outcome.state.known.Keys, selection),
                                     maxReturnedPeers, hostOf)
  {
    hide CrawlFrom, GoodSelection, Eligible, SuppliedAddrs, Canonical;
    var suppliedPeers := Supply(hosts);
    if suppliedPeers.None? {
      return Err(()), Failed, map[];
    }
    assert suppliedPeers.value.Keys == SuppliedAddrs(hosts);
    r, outcome := CrawlAndSelect(suppliedPeers.value, selection, minDiscoveredPeers, minPeerConnectivity,
                                 maxReturnedPeers, rounds, hostOf);
    suppliedAfter := View(suppliedPeers.value);
  }

  lemma SameView(m: Peers, r: Peers)
    requires m.Keys == r.Keys && forall a :: a in r ==> r[a].peerAddrs == m[a].peerAddrs && r[a].successfullyQueried == m[a].successfullyQueried
    ensures View(r) == View(m)
  {
  }

  method CopyRecords(m: Peers) returns (r: Peers)
    requires Keyed(m)
    ensures Keyed(r) && r.Keys == m.Keys
    ensures forall a :: a in r ==> fresh(r[a])
    ensures forall a :: a in r ==>
              r[a].peerAddrs == m[a].peerAddrs && r[a].successfullyQueried == m[a].successfullyQueried
  {
    r := map[];
    var left := m.Keys;
    while left != {}
      invariant left <= m.Keys
      invariant r.Keys == m.Keys - left
      invariant Keyed(r)
      invariant forall a :: a in r ==> fresh(r[a])
      invariant forall a :: a in r ==> r[a].peerAddrs == m[a].peerAddrs && r[a].successfullyQueried == m[a].successfullyQueried
      decreases left
    {
      var a :| a in left;
      left := left - {a};
      var copy := new PeerInfo(a, m[a].peerAddrs, m[a].successfullyQueried);
      r := r[a := copy];
    }
  }

  method CopyAll(m: Peers) returns (r: Peers)
    requires Keyed(m)
    ensures Keyed(r) && View(r) == View(m)
    ensures forall a :: a in r ==> fresh(r[a])
  {
    r := CopyRecords(m);
    SameView(m, r);
  }

}
