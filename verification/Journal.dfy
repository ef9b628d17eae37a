/** The change journal agrees with the inventory: it can be replayed, each port opens and closes
    in turn, and what is reported twice changes nothing the second time. */
module Journal {
  import opened Results
  import opened Inventory

  /** The journal's view of the inventory: the service name of every open socket. */
  type Sockets = map<(string, nat), string>

  function SocketsOf(assets: Assets): Sockets {
    var keys := set a, p | a in assets && p in assets[a].services :: (a, p);
    map k | k in keys :: assets[k.0].services[k.1].service
  }

  function NameAt(assets: Assets, address: string, port: nat): Option<string> {
    if address in assets && port in assets[address].services then Some(assets[address].services[port].service) else None
  }

  function At(m: Sockets, address: string, port: nat): Option<string> {
    if (address, port) in m then Some(m[(address, port)]) else None
  }

  ghost predicate Agrees(m: Sockets, assets: Assets) {
    forall a, p :: At(m, a, p) == NameAt(assets, a, p)
  }

  lemma AgreementIsEquality(m: Sockets, assets: Assets)
    ensures Agrees(m, assets) <==> m == SocketsOf(assets)
  {
    var n := SocketsOf(assets);
    assert forall a, p :: At(n, a, p) == NameAt(assets, a, p);
    if Agrees(m, assets) {
      forall k
        ensures k in m <==> k in n
        ensures k in m ==> m[k] == n[k]
      {
        assert At(m, k.0, k.1) == At(n, k.0, k.1);
      }
      assert m == n;
    }
  }

  /** Strict replay: a port may only open while closed, and only close or change while open
      under the recorded name. */
  function ReplayOne(m: Sockets, c: Change): Option<Sockets> {
    match c
    case PortOpened(a, p, after) => if (a, p) in m then None else Some(m[(a, p) := after])
    case PortClosed(a, p, before) => if At(m, a, p) == Some(before) then Some(m - {(a, p)}) else None
    case ServiceChanged(a, p, before, after) =>
      if At(m, a, p) == Some(before) && before != after then Some(m[(a, p) := after]) else None
    case _ => Some(m)
  }

  function Replay(m: Sockets, journal: seq<Change>): Option<Sockets>
    decreases |journal|
  {
    if journal == [] then Some(m)
    else
      var before := Replay(m, journal[..|journal| - 1]);
      if before.None? then None else ReplayOne(before.value, journal[|journal| - 1])
  }

  lemma {:induction false} ReplayConcat(m: Sockets, first: seq<Change>, second: seq<Change>)
    ensures Replay(m, first + second) ==
      if Replay(m, first).None? then None else Replay(Replay(m, first).value, second)
    decreases |second|
  {
    var all := first + second;
    if second == [] {
      assert all == first;
    } else {
      assert all[..|all| - 1] == first + second[..|second| - 1];
      ReplayConcat(m, first, second[..|second| - 1]);
    }
  }

  predicate Silent(c: Change) {
    !c.PortOpened? && !c.PortClosed? && !c.ServiceChanged?
  }

  lemma {:induction false} ReplaySilent(m: Sockets, journal: seq<Change>)
    requires forall c | c in journal :: Silent(c)
    ensures Replay(m, journal) == Some(m)
    decreases |journal|
  {
    if journal != [] {
      assert Silent(journal[|journal| - 1]);
      ReplaySilent(m, journal[..|journal| - 1]);
    }
  }

  lemma ReplayHead(m: Sockets, c: Change, rest: seq<Change>)
    requires forall d | d in rest :: Silent(d)
    ensures Replay(m, [c] + rest) == ReplayOne(m, c)
  {
    assert Replay(m, [c]) == ReplayOne(m, c) by {
      assert [c][..0] == [];
      assert Replay(m, []) == Some(m);
    }
    ReplayConcat(m, [c], rest);
    if ReplayOne(m, c).Some? {
      ReplaySilent(ReplayOne(m, c).value, rest);
    }
  }

  // ------------------------------------------------------------ replaying one scan

  function SetName(m: Sockets, address: string, port: nat, name: Option<string>): Sockets {
    if name.Some? then m[(address, port) := name.value] else m - {(address, port)}
  }

  function NameIn(services: map<nat, ServiceRecord>, port: nat): Option<string> {
    if port in services then Some(services[port].service) else None
  }

  lemma DetailsReplay(m: Sockets, a: string, p: nat, previous: ServiceRecord, observed: ServiceRecord)
    requires At(m, a, p) == Some(previous.service)
    ensures Replay(m, DetailChanges(a, p, previous, observed)) == Some(m[(a, p) := observed.service])
  {
    var rest := Refinements(a, p, previous, observed);
    RefinementsAreSilent(a, p, previous, observed);
    if previous.service != observed.service {
      ReplayHead(m, ServiceChanged(a, p, previous.service, observed.service), rest);
    } else {
      assert DetailChanges(a, p, previous, observed) == rest;
      ReplaySilent(m, rest);
      assert m[(a, p) := observed.service] == m;
    }
  }

  lemma RefinementsAreSilent(a: string, p: nat, previous: ServiceRecord, observed: ServiceRecord)
    ensures forall c | c in Refinements(a, p, previous, observed) :: Silent(c)
  {
  }

  lemma PortReplays(m: Sockets, known: map<nat, ServiceRecord>, r: ScanReport, a: string, p: nat)
    requires At(m, a, p) == NameIn(known, p)
    ensures Replay(m, PortChanges(known, r, a, p))
      == Some(SetName(m, a, p, NameIn(ScannedServices(known, r, a, {p}), p)))
  {
    var changes := PortChanges(known, r, a, p);
    if p in OpenPorts(r, a) && p in known {
      DetailsReplay(m, a, p, known[p], ObservedService(r, a, p));
    } else if changes != [] {
      assert changes == [changes[0]] + [];
      ReplayHead(m, changes[0], []);
    } else {
      ReplaySilent(m, changes);
      assert SetName(m, a, p, NameIn(known, p)) == m;
    }
  }

  /** What `m` becomes when the ports in `ports` have been replayed. */
  ghost predicate PortsReplayed(m: Sockets, n: Sockets, services: map<nat, ServiceRecord>, a: string, ports: set<nat>) {
    && (forall b, p :: (b != a || p !in ports) ==> At(n, b, p) == At(m, b, p))
    && (forall p | p in ports :: At(n, a, p) == NameIn(services, p))
  }

  lemma {:induction false} PortsReplay(m: Sockets, known: map<nat, ServiceRecord>, r: ScanReport, a: string,
                                       ports: seq<nat>)
    requires forall p :: At(m, a, p) == NameIn(known, p)
    requires forall i, j | 0 <= i < j < |ports| :: ports[i] < ports[j]
    ensures Replay(m, PortJournal(known, r, a, ports)).Some?
    ensures PortsReplayed(m, Replay(m, PortJournal(known, r, a, ports)).value,
      ScannedServices(known, r, a, Elements(ports)), a, Elements(ports))
    decreases |ports|
  {
    if ports != [] {
      var before, p := ports[..|ports| - 1], ports[|ports| - 1];
      PortsReplay(m, known, r, a, before);
      NextPort(ports, |ports| - 1);
      assert ports[..|ports| - 1 + 1] == ports;
      PortsReplayStep(m, known, r, a, before, p);
    }
  }

  lemma PortsReplayStep(m: Sockets, known: map<nat, ServiceRecord>, r: ScanReport, a: string, before: seq<nat>, p: nat)
    requires At(m, a, p) == NameIn(known, p) && p !in Elements(before)
    requires Replay(m, PortJournal(known, r, a, before)).Some?
    requires PortsReplayed(m, Replay(m, PortJournal(known, r, a, before)).value,
                           ScannedServices(known, r, a, Elements(before)), a, Elements(before))
    ensures var n := Replay(m, PortJournal(known, r, a, before) + PortChanges(known, r, a, p));
      && n.Some?
      && PortsReplayed(m, n.value, ScannedServices(known, r, a, Elements(before) + {p}), a, Elements(before) + {p})
  {
    var n := Replay(m, PortJournal(known, r, a, before)).value;
    assert At(n, a, p) == At(m, a, p);
    PortReplays(n, known, r, a, p);
    ReplayConcat(m, PortJournal(known, r, a, before), PortChanges(known, r, a, p));
    PortsReplayedMore(m, n, known, r, a, Elements(before), p);
  }

  /** What a scan makes of one port does not depend on the other ports. */
  lemma SamePerPort(known: map<nat, ServiceRecord>, r: ScanReport, a: string, ports: set<nat>, p: nat)
    ensures NameIn(ScannedServices(known, r, a, ports + {p}), p) == NameIn(ScannedServices(known, r, a, {p}), p)
    ensures forall q | q in ports ::
      NameIn(ScannedServices(known, r, a, ports + {p}), q) == NameIn(ScannedServices(known, r, a, ports), q)
  {
  }

  lemma PortsReplayedMore(m: Sockets, n: Sockets, known: map<nat, ServiceRecord>, r: ScanReport, a: string,
                          ports: set<nat>, p: nat)
    requires PortsReplayed(m, n, ScannedServices(known, r, a, ports), a, ports)
    ensures PortsReplayed(m, SetName(n, a, p, NameIn(ScannedServices(known, r, a, {p}), p)),
                          ScannedServices(known, r, a, ports + {p}), a, ports + {p})
  {
    SamePerPort(known, r, a, ports, p);
  }

  lemma UntouchedPort(known: map<nat, ServiceRecord>, r: ScanReport, a: string, ports: set<nat>, p: nat)
    requires p !in ports
    ensures p in ScannedServices(known, r, a, ports) <==> p in known
    ensures p in known ==> ScannedServices(known, r, a, ports)[p] == known[p]
  {
  }

  lemma RescanReplays(m: Sockets, asset: Asset, r: ScanReport, a: string)
    requires forall p :: At(m, a, p) == NameIn(asset.services, p)
    ensures Replay(m, RescanJournal(asset, r, a)).Some?
    ensures var n := Replay(m, RescanJournal(asset, r, a)).value;
      && (forall p :: At(n, a, p) == NameIn(RescannedAsset(asset, r, a).services, p))
      && (forall b, p :: b != a ==> At(n, b, p) == At(m, b, p))
  {
    var ports := PortJournal(asset.services, r, a, Ascending(RequestedPorts(r, a)));
    AllPortsReplay(m, asset.services, r, a);
    HostChangesAreSilent(asset, r, a);
    ReplayConcat(m, ports, HostChanges(asset, r, a));
    ReplaySilent(Replay(m, ports).value, HostChanges(asset, r, a));
  }

  lemma HostChangesAreSilent(asset: Asset, r: ScanReport, a: string)
    ensures forall c | c in HostChanges(asset, r, a) :: Silent(c)
  {
  }

  lemma AllPortsReplay(m: Sockets, known: map<nat, ServiceRecord>, r: ScanReport, a: string)
    requires forall p :: At(m, a, p) == NameIn(known, p)
    ensures var n := Replay(m, PortJournal(known, r, a, Ascending(RequestedPorts(r, a))));
      && n.Some?
      && (forall p :: At(n.value, a, p) == NameIn(ScannedServices(known, r, a, RequestedPorts(r, a)), p))
      && (forall b, p :: b != a ==> At(n.value, b, p) == At(m, b, p))
  {
    var requested := RequestedPorts(r, a);
    PortsReplay(m, known, r, a, Ascending(requested));
    assert Elements(Ascending(requested)) == requested;
    var n := Replay(m, PortJournal(known, r, a, Ascending(requested))).value;
    forall p: nat
      ensures At(n, a, p) == NameIn(ScannedServices(known, r, a, requested), p)
    {
      if p !in requested {
        UntouchedPort(known, r, a, requested, p);
      }
    }
  }

  lemma BaseAgrees(m: Sockets, assets: Assets, r: ScanReport, a: string)
    requires Agrees(m, assets)
    ensures forall p :: At(m, a, p) == NameIn(ScanBase(assets, r, a).services, p)
  {
    forall p: nat
      ensures At(m, a, p) == NameIn(ScanBase(assets, r, a).services, p)
    {
      assert At(m, a, p) == NameAt(assets, a, p);
    }
  }

  lemma ReplacedAgrees(m: Sockets, n: Sockets, assets: Assets, a: string, asset: Asset)
    requires Agrees(m, assets)
    requires forall p :: At(n, a, p) == NameIn(asset.services, p)
    requires forall b, p :: b != a ==> At(n, b, p) == At(m, b, p)
    ensures Agrees(n, assets[a := asset])
  {
    forall b: string, p: nat
      ensures At(n, b, p) == NameAt(assets[a := asset], b, p)
    {
      assert At(m, b, p) == NameAt(assets, b, p);
    }
  }

  lemma ScanAddressReplays(m: Sockets, assets: Assets, r: ScanReport, a: string)
    requires Agrees(m, assets)
    ensures Replay(m, ScanAddressJournal(assets, r, a)).Some?
    ensures Agrees(Replay(m, ScanAddressJournal(assets, r, a)).value, ScanAddress(assets, r, a))
  {
    if !ScanSkips(assets, r, a) {
      var base := ScanBase(assets, r, a);
      BaseAgrees(m, assets, r, a);
      RescanReplays(m, base, r, a);
      var announced: seq<Change> := if a in assets then [] else [NewAsset(a)];
      var journal := RescanJournal(base, r, a);
      ReplaySilent(m, announced);
      ReplayConcat(m, announced, journal);
      ReplacedAgrees(m, Replay(m, journal).value, assets, a, RescannedAsset(base, r, a));
      assert ScanAddressJournal(assets, r, a) == announced + journal;
    }
  }

  lemma {:induction false} ScanReplays(m: Sockets, assets: Assets, r: ScanReport, addresses: seq<string>)
    requires Agrees(m, assets)
    ensures Replay(m, ScanJournal(assets, r, addresses)).Some?
    ensures Agrees(Replay(m, ScanJournal(assets, r, addresses)).value, ScanAddresses(assets, r, addresses))
    decreases |addresses|
  {
    if addresses != [] {
      var before, a := addresses[..|addresses| - 1], addresses[|addresses| - 1];
      ScanReplays(m, assets, r, before);
      var n := Replay(m, ScanJournal(assets, r, before)).value;
      ScanAddressReplays(n, ScanAddresses(assets, r, before), r, a);
      ReplayConcat(m, ScanJournal(assets, r, before), ScanAddressJournal(ScanAddresses(assets, r, before), r, a));
    }
  }

  lemma DiscoverHostSilent(m: Sockets, assets: Assets, r: DiscoveryReport, x: HostResult)
    requires Agrees(m, assets)
    ensures forall c | c in DiscoverHostJournal(assets, x) :: Silent(c)
    ensures Agrees(m, DiscoverHost(assets, r, x))
  {
    forall a: string, p: nat
      ensures At(m, a, p) == NameAt(DiscoverHost(assets, r, x), a, p)
    {
      assert At(m, a, p) == NameAt(assets, a, p);
    }
  }

  lemma {:induction false} DiscoveryReplays(m: Sockets, assets: Assets, r: DiscoveryReport, results: seq<HostResult>)
    requires Agrees(m, assets)
    ensures Replay(m, DiscoveryJournal(assets, r, results)) == Some(m)
    ensures Agrees(m, DiscoverHosts(assets, r, results))
    decreases |results|
  {
    if results != [] {
      var before, x := results[..|results| - 1], results[|results| - 1];
      DiscoveryReplays(m, assets, r, before);
      DiscoverHostSilent(m, DiscoverHosts(assets, r, before), r, x);
      ReplaySilent(m, DiscoverHostJournal(DiscoverHosts(assets, r, before), x));
      ReplayConcat(m, DiscoveryJournal(assets, r, before), DiscoverHostJournal(DiscoverHosts(assets, r, before), x));
    }
  }

  // --------------------------------------------------------------- whole histories

  datatype Report = Scan(scan: ScanReport) | Discovery(discovery: DiscoveryReport)

  function AssetsAfter(assets: Assets, r: Report): Assets {
    match r
    case Scan(scan) => ScanAddresses(assets, scan, scan.addresses)
    case Discovery(discovery) => DiscoverHosts(assets, discovery, discovery.results)
  }

  function JournalOf(assets: Assets, r: Report): seq<Change> {
    match r
    case Scan(scan) => ScanJournal(assets, scan, scan.addresses)
    case Discovery(discovery) => DiscoveryJournal(assets, discovery, discovery.results)
  }

  /** One report: replaying its journal over the inventory before it gives the one after it. */
  lemma ReportReplays(assets: Assets, r: Report)
    ensures Replay(SocketsOf(assets), JournalOf(assets, r)) == Some(SocketsOf(AssetsAfter(assets, r)))
  {
    var m := SocketsOf(assets);
    AgreementIsEquality(m, assets);
    match r
    case Scan(scan) =>
      ScanReplays(m, assets, scan, scan.addresses);
      AgreementIsEquality(Replay(m, JournalOf(assets, r)).value, AssetsAfter(assets, r));
    case Discovery(discovery) =>
      DiscoveryReplays(m, assets, discovery, discovery.results);
      AgreementIsEquality(m, AssetsAfter(assets, r));
  }

  /** The inventory after any sequence of reports, from the empty one. */
  function History(reports: seq<Report>): Assets
    decreases |reports|
  {
    if reports == [] then map[] else AssetsAfter(History(reports[..|reports| - 1]), reports[|reports| - 1])
  }

  function FullJournal(reports: seq<Report>): seq<Change>
    decreases |reports|
  {
    if reports == [] then []
    else FullJournal(reports[..|reports| - 1]) + JournalOf(History(reports[..|reports| - 1]), reports[|reports| - 1])
  }

  /** The whole journal, replayed strictly from nothing, is the inventory. */
  lemma {:induction false} HistoryReplays(reports: seq<Report>)
    ensures Replay(map[], FullJournal(reports)) == Some(SocketsOf(History(reports)))
    decreases |reports|
  {
    if reports == [] {
      assert SocketsOf(map[]) == map[];
    } else {
      var before := reports[..|reports| - 1];
      HistoryReplays(before);
      ReportReplays(History(before), reports[|reports| - 1]);
      ReplayConcat(map[], FullJournal(before), JournalOf(History(before), reports[|reports| - 1]));
    }
  }

  /** The openings (true) and closings (false) of one socket, in order. */
  function Turns(journal: seq<Change>, a: string, p: nat): seq<bool>
    decreases |journal|
  {
    if journal == [] then []
    else
      var last := journal[|journal| - 1];
      Turns(journal[..|journal| - 1], a, p) +
        (if last.PortOpened? && last.address == a && last.port == p then [true]
         else if last.PortClosed? && last.address == a && last.port == p then [false]
         else [])
  }

  lemma {:induction false} ReplayAlternates(journal: seq<Change>, a: string, p: nat)
    requires Replay(map[], journal).Some?
    ensures forall i | 0 <= i < |Turns(journal, a, p)| :: Turns(journal, a, p)[i] == (i % 2 == 0)
    ensures (a, p) in Replay(map[], journal).value <==> |Turns(journal, a, p)| % 2 == 1
    decreases |journal|
  {
    if journal != [] {
      ReplayAlternates(journal[..|journal| - 1], a, p);
    }
  }

  /** Over every history the openings and closings of a port strictly alternate, starting with
      an opening, and the port is in the inventory exactly while the last one is an opening. */
  lemma PortsAlternate(reports: seq<Report>, a: string, p: nat)
    ensures var turns := Turns(FullJournal(reports), a, p);
      && (forall i | 0 <= i < |turns| :: turns[i] == (i % 2 == 0))
      && (NameAt(History(reports), a, p).Some? <==> turns != [] && turns[|turns| - 1])
  {
    HistoryReplays(reports);
    ReplayedAlternates(FullJournal(reports), History(reports), a, p);
  }

  lemma ReplayedAlternates(journal: seq<Change>, assets: Assets, a: string, p: nat)
    requires Replay(map[], journal) == Some(SocketsOf(assets))
    ensures var turns := Turns(journal, a, p);
      && (forall i | 0 <= i < |turns| :: turns[i] == (i % 2 == 0))
      && (NameAt(assets, a, p).Some? <==> turns != [] && turns[|turns| - 1])
  {
    ReplayAlternates(journal, a, p);
    SocketListed(assets, a, p);
    OddEndsOpen(Turns(journal, a, p));
  }

  lemma SocketListed(assets: Assets, a: string, p: nat)
    ensures (a, p) in SocketsOf(assets) <==> NameAt(assets, a, p).Some?
  {
  }

  lemma OddEndsOpen(turns: seq<bool>)
    requires forall i | 0 <= i < |turns| :: turns[i] == (i % 2 == 0)
    ensures |turns| % 2 == 1 <==> turns != [] && turns[|turns| - 1]
  {
  }

  // ------------------------------------------------------- what no report takes away

  /** `b` is a later state of asset `a`: the same address, first seen at the same time. */
  predicate AssetKept(a: Asset, b: Asset) {
    b.firstSeen == a.firstSeen && b.address == a.address
  }

  ghost predicate AssetsKept(before: Assets, after: Assets) {
    forall a | a in before :: a in after && AssetKept(before[a], after[a])
  }

  lemma {:induction false} ScanKeeps(assets: Assets, r: ScanReport, addresses: seq<string>)
    ensures AssetsKept(assets, ScanAddresses(assets, r, addresses))
    decreases |addresses|
  {
    if addresses != [] {
      ScanKeeps(assets, r, addresses[..|addresses| - 1]);
    }
  }

  lemma {:induction false} DiscoveryKeeps(assets: Assets, r: DiscoveryReport, results: seq<HostResult>)
    ensures AssetsKept(assets, DiscoverHosts(assets, r, results))
    ensures forall a | a in assets :: DiscoverHosts(assets, r, results)[a].services == assets[a].services
    decreases |results|
  {
    if results != [] {
      DiscoveryKeeps(assets, r, results[..|results| - 1]);
    }
  }

  lemma {:induction false} UnscannedPortsKept(assets: Assets, r: ScanReport, addresses: seq<string>, a: string, p: nat)
    requires a in assets && p !in RequestedPorts(r, a)
    ensures a in ScanAddresses(assets, r, addresses)
    ensures p in ScanAddresses(assets, r, addresses)[a].services <==> p in assets[a].services
    ensures p in assets[a].services ==> ScanAddresses(assets, r, addresses)[a].services[p] == assets[a].services[p]
    decreases |addresses|
  {
    if addresses != [] {
      UnscannedPortsKept(assets, r, addresses[..|addresses| - 1], a, p);
      var before := ScanAddresses(assets, r, addresses[..|addresses| - 1]);
      UntouchedPort(before[a].services, r, a, RequestedPorts(r, a), p);
    }
  }

  /** No report drops an asset or rewrites when it was first seen. */
  lemma NothingForgotten(assets: Assets, r: Report)
    ensures AssetsKept(assets, AssetsAfter(assets, r))
  {
    match r
    case Scan(scan) => ScanKeeps(assets, scan, scan.addresses);
    case Discovery(discovery) => DiscoveryKeeps(assets, discovery, discovery.results);
  }
}
