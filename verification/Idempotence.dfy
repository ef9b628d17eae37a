/** Reporting the same observation twice. A scan report is always idempotent; a discovery report
    is so exactly when it does not contradict itself about any host. */
module Idempotence {
  import opened Results
  import opened Inventory

  // ----------------------------------------------------------------------- scan reports

  ghost predicate AssetFixed(a: Asset, r: ScanReport, address: string) {
    RescannedAsset(a, r, address) == a && RescanJournal(a, r, address) == []
  }

  lemma QuietPort(known: map<nat, ServiceRecord>, r: ScanReport, a: string, p: nat)
    requires p in RequestedPorts(r, a)
    ensures PortChanges(ScannedServices(known, r, a, RequestedPorts(r, a)), r, a, p) == []
  {
  }

  lemma {:induction false} QuietPorts(known: map<nat, ServiceRecord>, r: ScanReport, a: string, ports: seq<nat>)
    requires forall p | p in ports :: p in RequestedPorts(r, a)
    ensures PortJournal(ScannedServices(known, r, a, RequestedPorts(r, a)), r, a, ports) == []
    decreases |ports|
  {
    if ports != [] {
      QuietPorts(known, r, a, ports[..|ports| - 1]);
      QuietPort(known, r, a, ports[|ports| - 1]);
    }
  }

  lemma ServicesSettle(known: map<nat, ServiceRecord>, r: ScanReport, a: string, ports: set<nat>)
    ensures ScannedServices(ScannedServices(known, r, a, ports), r, a, ports) == ScannedServices(known, r, a, ports)
  {
  }

  lemma RescanSettles(a: Asset, r: ScanReport, address: string)
    ensures AssetFixed(RescannedAsset(a, r, address), r, address)
  {
    ServicesSettle(a.services, r, address, RequestedPorts(r, address));
    QuietPorts(a.services, r, address, Ascending(RequestedPorts(r, address)));
  }

  ghost predicate AddressFixed(assets: Assets, r: ScanReport, a: string) {
    if a in assets then AssetFixed(assets[a], r, a) else OpenPorts(r, a) == {}
  }

  lemma FixedAddressScans(assets: Assets, r: ScanReport, a: string)
    requires AddressFixed(assets, r, a)
    ensures ScanAddress(assets, r, a) == assets && ScanAddressJournal(assets, r, a) == []
  {
  }

  lemma ScanFixesAddress(assets: Assets, r: ScanReport, a: string)
    ensures AddressFixed(ScanAddress(assets, r, a), r, a)
  {
    if !ScanSkips(assets, r, a) {
      RescanSettles(ScanBase(assets, r, a), r, a);
    }
  }

  lemma {:induction false} ScanFixesAddresses(assets: Assets, r: ScanReport, addresses: seq<string>)
    ensures forall a | a in addresses :: AddressFixed(ScanAddresses(assets, r, addresses), r, a)
    decreases |addresses|
  {
    if addresses != [] {
      var before, last := addresses[..|addresses| - 1], addresses[|addresses| - 1];
      ScanFixesAddresses(assets, r, before);
      ScanFixesAddress(ScanAddresses(assets, r, before), r, last);
      forall a | a in addresses
        ensures AddressFixed(ScanAddresses(assets, r, addresses), r, a)
      {
        if a != last {
          assert a in before;
        }
      }
    }
  }

  lemma {:induction false} FixedAddressesScan(assets: Assets, r: ScanReport, addresses: seq<string>)
    requires forall a | a in addresses :: AddressFixed(assets, r, a)
    ensures ScanAddresses(assets, r, addresses) == assets && ScanJournal(assets, r, addresses) == []
    decreases |addresses|
  {
    if addresses != [] {
      FixedAddressesScan(assets, r, addresses[..|addresses| - 1]);
      FixedAddressScans(assets, r, addresses[|addresses| - 1]);
    }
  }

  /** Applying the same scan report again changes nothing and journals nothing. */
  lemma ScanIsIdempotent(assets: Assets, r: ScanReport)
    ensures var once := ScanAddresses(assets, r, r.addresses);
      ScanAddresses(once, r, r.addresses) == once && ScanJournal(once, r, r.addresses) == []
  {
    ScanFixesAddresses(assets, r, r.addresses);
    FixedAddressesScan(ScanAddresses(assets, r, r.addresses), r, r.addresses);
  }

  // ------------------------------------------------------------------ discovery reports

  /** The report never calls one host both responsive and unresponsive. */
  predicate Consistent(results: seq<HostResult>) {
    forall i, j | 0 <= i < j < |results| && results[i].address == results[j].address ::
        results[i].responsive == results[j].responsive
  }

  predicate HasOrBlank(values: seq<string>, value: string) {
    value == "" || value in values
  }

  predicate AssetAbsorbs(a: Asset, x: HostResult, r: DiscoveryReport) {
    && (x.responsive ==> a.lastSeen == r.createdAt)
    && a.lastCheckedAt == r.createdAt
    && a.lastResponsive == Some(x.responsive)
    && HasOrBlank(a.hostnames, x.hostname)
    && HasOrBlank(a.methods, x.discoveryMethod)
    && HasOrBlank(a.sessions, r.sessionId)
  }

  predicate Absorbs(assets: Assets, x: HostResult, r: DiscoveryReport) {
    if x.address in assets then AssetAbsorbs(assets[x.address], x, r) else !x.responsive
  }

  lemma AbsorbedIsQuiet(assets: Assets, r: DiscoveryReport, x: HostResult)
    requires Absorbs(assets, x, r)
    ensures DiscoverHost(assets, r, x) == assets && DiscoverHostJournal(assets, x) == []
  {
  }

  lemma DiscoveryAbsorbs(assets: Assets, r: DiscoveryReport, x: HostResult)
    ensures Absorbs(DiscoverHost(assets, r, x), x, r)
  {
  }

  lemma AbsorptionSurvives(assets: Assets, r: DiscoveryReport, x: HostResult, y: HostResult)
    requires Absorbs(assets, x, r)
    requires y.address != x.address || y.responsive == x.responsive
    ensures Absorbs(DiscoverHost(assets, r, y), x, r)
  {
  }

  lemma {:induction false} ConsistentAbsorbed(assets: Assets, r: DiscoveryReport, results: seq<HostResult>)
    requires Consistent(results)
    ensures forall x | x in results :: Absorbs(DiscoverHosts(assets, r, results), x, r)
    decreases |results|
  {
    if results != [] {
      var before, y := results[..|results| - 1], results[|results| - 1];
      ConsistentAbsorbed(assets, r, before);
      DiscoveryAbsorbs(DiscoverHosts(assets, r, before), r, y);
      forall x | x in before
        ensures Absorbs(DiscoverHosts(assets, r, results), x, r)
      {
        var i :| 0 <= i < |before| && before[i] == x;
        assert results[i] == x;
        AbsorptionSurvives(DiscoverHosts(assets, r, before), r, x, y);
      }
    }
  }

  lemma {:induction false} AbsorbedAreQuiet(assets: Assets, r: DiscoveryReport, results: seq<HostResult>)
    requires forall x | x in results :: Absorbs(assets, x, r)
    ensures DiscoverHosts(assets, r, results) == assets && DiscoveryJournal(assets, r, results) == []
    decreases |results|
  {
    if results != [] {
      AbsorbedAreQuiet(assets, r, results[..|results| - 1]);
      AbsorbedIsQuiet(assets, r, results[|results| - 1]);
    }
  }

  /** A host the inventory knows to be responsive or not, and the report agrees. */
  predicate AgreesWith(assets: Assets, x: HostResult) {
    if x.address in assets then assets[x.address].lastResponsive == Some(x.responsive) else !x.responsive
  }

  ghost predicate SameReachability(before: Assets, after: Assets) {
    before.Keys == after.Keys && forall a | a in before :: after[a].lastResponsive == before[a].lastResponsive
  }

  lemma QuietHostAgrees(assets: Assets, now: Assets, r: DiscoveryReport, y: HostResult)
    requires SameReachability(assets, now) && DiscoverHostJournal(now, y) == []
    requires y.address in assets ==> assets[y.address].lastResponsive.Some?
    ensures AgreesWith(assets, y) && SameReachability(assets, DiscoverHost(now, r, y))
  {
    if y.address in now {
      TurnIsJournalled(now[y.address], y);
    }
  }

  lemma TurnIsJournalled(a: Asset, y: HostResult)
    ensures a.lastResponsive.Some? && a.lastResponsive.value != y.responsive ==> RediscoverJournal(a, y) != []
  {
    assert y.responsive && a.lastResponsive == Some(false) ==> HostResponsive(y.address) in RediscoverJournal(a, y);
    assert !y.responsive && a.lastResponsive == Some(true) ==> HostUnresponsive(y.address) in RediscoverJournal(a, y);
  }

  lemma {:induction false} QuietMeansAgreement(assets: Assets, r: DiscoveryReport, results: seq<HostResult>)
    requires DiscoveryJournal(assets, r, results) == []
    requires forall x | x in results && x.address in assets :: assets[x.address].lastResponsive.Some?
    ensures SameReachability(assets, DiscoverHosts(assets, r, results))
    ensures forall x | x in results :: AgreesWith(assets, x)
    decreases |results|
  {
    if results != [] {
      var before, y := results[..|results| - 1], results[|results| - 1];
      QuietMeansAgreement(assets, r, before);
      QuietHostAgrees(assets, DiscoverHosts(assets, r, before), r, y);
      forall x | x in results
        ensures AgreesWith(assets, x)
      {
        assert x in before || x == y;
      }
    }
  }

  lemma {:induction false} DiscoveredIsDecided(assets: Assets, r: DiscoveryReport, results: seq<HostResult>)
    ensures forall x | x in results && x.address in DiscoverHosts(assets, r, results) ::
      DiscoverHosts(assets, r, results)[x.address].lastResponsive.Some?
    decreases |results|
  {
    if results != [] {
      DiscoveredIsDecided(assets, r, results[..|results| - 1]);
    }
  }

  lemma AgreementIsConsistent(assets: Assets, results: seq<HostResult>)
    requires forall x | x in results :: AgreesWith(assets, x)
    ensures Consistent(results)
  {
    forall i, j | 0 <= i < j < |results| && results[i].address == results[j].address
      ensures results[i].responsive == results[j].responsive
    {
      assert AgreesWith(assets, results[i]) && AgreesWith(assets, results[j]);
    }
  }

  /** Applying the same discovery report again journals nothing if and only if the report is
      consistent; and then the inventory stays as it is. */
  lemma DiscoveryIdempotentIffConsistent(assets: Assets, r: DiscoveryReport)
    ensures var once := DiscoverHosts(assets, r, r.results);
      && (Consistent(r.results) <==> DiscoveryJournal(once, r, r.results) == [])
      && (Consistent(r.results) ==> DiscoverHosts(once, r, r.results) == once)
  {
    var once := DiscoverHosts(assets, r, r.results);
    if Consistent(r.results) {
      ConsistentAbsorbed(assets, r, r.results);
      AbsorbedAreQuiet(once, r, r.results);
    }
    if DiscoveryJournal(once, r, r.results) == [] {
      DiscoveredIsDecided(assets, r, r.results);
      QuietMeansAgreement(once, r, r.results);
      AgreementIsConsistent(once, r.results);
    }
  }

  /** A report that contradicts itself is journalled again each time it is applied. */
  lemma ContradictoryReportExample()
    ensures var r := DiscoveryReport("s", "t",
      [HostResult("10.0.0.1", true, "", "icmp"), HostResult("10.0.0.1", false, "", "icmp")]);
      var once := DiscoverHosts(map[], r, r.results);
      DiscoveryJournal(once, r, r.results) == [HostResponsive("10.0.0.1"), HostUnresponsive("10.0.0.1")]
  {
    var up, down := HostResult("10.0.0.1", true, "", "icmp"), HostResult("10.0.0.1", false, "", "icmp");
    var r := DiscoveryReport("s", "t", [up, down]);
    assert r.results[..1] == [up] && [up][..0] == [];
    var first := DiscoverHosts(map[], r, [up]);
    assert first == DiscoverHost(DiscoverHosts(map[], r, []), r, up);
    var once := DiscoverHosts(map[], r, r.results);
    assert once == DiscoverHost(first, r, down);
    assert DiscoverHosts(once, r, [up]) == DiscoverHost(DiscoverHosts(once, r, []), r, up);
    assert DiscoveryJournal(once, r, [up]) == DiscoveryJournal(once, r, []) + DiscoverHostJournal(once, up);
  }
}
