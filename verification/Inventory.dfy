/** The persistent asset inventory: merging scan and discovery reports, and the change journal
    that goes with them. Assets are keyed by address and services by port. */
module Inventory {
  import opened Results
  import Octets

  // ------------------------------------------------------------------------- records

  datatype ServiceRecord = ServiceRecord(
    port: nat,
    service: string,
    product: string,
    version: string,
    protocolVersion: string,
    platform: string,
    fingerprintSource: string,
    fingerprintConfidence: string,
    tlsSha256: string)

  datatype Os = Os(platform: string, family: string, confidence: string, candidates: seq<string>, evidenceCount: nat)

  datatype Asset = Asset(
    address: string,
    firstSeen: string,
    lastSeen: string,
    lastCheckedAt: string,
    hostnames: seq<string>,
    os: Os,
    lastResponsive: Option<bool>,
    methods: seq<string>,
    services: map<nat, ServiceRecord>,
    sessions: seq<string>)

  type Assets = map<string, Asset>

  datatype State = State(assets: Assets, updatedAt: string)

  datatype Change =
    | NewAsset(address: string)
    | HostnameAdded(address: string, after: string)
    | HostResponsive(address: string)
    | HostUnresponsive(address: string)
    | PortOpened(address: string, port: nat, after: string)
    | PortClosed(address: string, port: nat, before: string)
    | ServiceChanged(address: string, port: nat, before: string, after: string)
    | SoftwareChanged(address: string, port: nat, before: string, after: string)
    | FingerprintChanged(address: string, port: nat, before: string, after: string)
    | OsChanged(address: string, before: string, after: string)

  datatype Software = Software(product: string, version: string)

  datatype Fingerprint = Fingerprint(product: string, version: string, protocolVersion: string, platform: string,
                                     source: string, confidence: string)

  datatype Detection = Detection(service: string, software: Option<Software>, fingerprint: Option<Fingerprint>,
                                 tlsSha256: string)

  datatype PortResult = PortResult(address: string, port: nat, isOpen: bool, state: string)

  datatype DetectedAt = DetectedAt(address: string, port: nat, detection: Detection)

  datatype OsAt = OsAt(address: string, os: Os)

  datatype ScanReport = ScanReport(
    sessionId: string,
    createdAt: string,
    target: string,
    targetIsHostname: bool,
    addresses: seq<string>,
    results: seq<PortResult>,
    services: seq<DetectedAt>,
    fingerprints: seq<OsAt>)

  datatype HostResult = HostResult(address: string, responsive: bool, hostname: string, discoveryMethod: string)

  datatype DiscoveryReport = DiscoveryReport(sessionId: string, createdAt: string, results: seq<HostResult>)

  // --------------------------------------------------------------------------- texts

  function JoinParts(parts: seq<string>): string {
    if parts == [] then ""
    else if parts[0] == "" then JoinParts(parts[1..])
    else var rest := JoinParts(parts[1..]); if rest == "" then parts[0] else parts[0] + " | " + rest
  }

  function SoftwareText(s: ServiceRecord): string {
    if s.product != "" && s.version != "" then s.product + " " + s.version
    else if s.product != "" then s.product else s.version
  }

  function FingerprintText(s: ServiceRecord): string {
    JoinParts([s.protocolVersion, s.platform, s.fingerprintSource, s.fingerprintConfidence])
  }

  function Labelled(name: string, text: string): string {
    if text == "" then "" else name + text
  }

  function CommaJoin(items: seq<string>): string {
    if items == [] then "" else if |items| == 1 then items[0] else items[0] + "," + CommaJoin(items[1..])
  }

  function OsText(os: Os): string {
    JoinParts([
      Labelled("platform=", os.platform),
      Labelled("family=", os.family),
      Labelled("confidence=", os.confidence),
      if os.candidates == [] then "" else "candidates=" + CommaJoin(os.candidates),
      if os.evidenceCount == 0 then "" else "evidence=" + Octets.Decimal(os.evidenceCount)])
  }

  function AppendUnique(values: seq<string>, value: string): seq<string> {
    if value == "" || value in values then values else values + [value]
  }

  function ServiceFor(port: nat, detected: Option<Detection>): ServiceRecord {
    match detected
    case None => ServiceRecord(port, "unknown", "", "", "", "", "", "", "")
    case Some(d) =>
      var product := if d.software.Some? then d.software.value.product else "";
      var version := if d.software.Some? then d.software.value.version else "";
      if d.fingerprint.Some? then
        var f := d.fingerprint.value;
        ServiceRecord(port, d.service, if product == "" then f.product else product,
                      if version == "" then f.version else version,
                      f.protocolVersion, f.platform, f.source, f.confidence, d.tlsSha256)
      else ServiceRecord(port, d.service, product, version, "", "", "", "", d.tlsSha256)
  }

  // --------------------------------------------------------------- what a scan observed

  /** Later detections for the same socket override earlier ones. */
  function DetectionAt(services: seq<DetectedAt>, address: string, port: nat): Option<Detection>
    decreases |services|
  {
    if services == [] then None
    else
      var last := services[|services| - 1];
      if last.address == address && last.port == port then Some(last.detection)
      else DetectionAt(services[..|services| - 1], address, port)
  }

  function OsObserved(fingerprints: seq<OsAt>, address: string): Option<Os>
    decreases |fingerprints|
  {
    if fingerprints == [] then None
    else
      var last := fingerprints[|fingerprints| - 1];
      if last.address == address then Some(last.os) else OsObserved(fingerprints[..|fingerprints| - 1], address)
  }

  function OpenPorts(r: ScanReport, address: string): set<nat> {
    set x | x in r.results && x.address == address && x.isOpen :: x.port
  }

  function ClosedPorts(r: ScanReport, address: string): set<nat> {
    set x | x in r.results && x.address == address && !x.isOpen && (x.state == "" || x.state == "closed") :: x.port
  }

  function RequestedPorts(r: ScanReport, address: string): set<nat> {
    set x | x in r.results && x.address == address :: x.port
  }

  function ObservedService(r: ScanReport, address: string, port: nat): ServiceRecord {
    ServiceFor(port, DetectionAt(r.services, address, port))
  }

  // ------------------------------------------------------------ one port, then all ports

  function DetailChanges(address: string, port: nat, previous: ServiceRecord, observed: ServiceRecord): seq<Change> {
    (if previous.service != observed.service
     then [ServiceChanged(address, port, previous.service, observed.service)] else [])
    + Refinements(address, port, previous, observed)
  }

  /** Changes of a service that keeps its name. */
  function Refinements(address: string, port: nat, previous: ServiceRecord, observed: ServiceRecord): seq<Change> {
    (if SoftwareText(previous) != SoftwareText(observed)
     then [SoftwareChanged(address, port, SoftwareText(previous), SoftwareText(observed))] else [])
    + (if FingerprintText(previous) != FingerprintText(observed)
       then [FingerprintChanged(address, port, FingerprintText(previous), FingerprintText(observed))] else [])
  }

  function PortChanges(known: map<nat, ServiceRecord>, r: ScanReport, address: string, port: nat): seq<Change> {
    if port in OpenPorts(r, address) then
      var observed := ObservedService(r, address, port);
      if port !in known then [PortOpened(address, port, observed.service)]
      else DetailChanges(address, port, known[port], observed)
    else if port in ClosedPorts(r, address) && port in known then [PortClosed(address, port, known[port].service)]
    else []
  }

  function PortJournal(known: map<nat, ServiceRecord>, r: ScanReport, address: string, ports: seq<nat>): seq<Change>
    decreases |ports|
  {
    if ports == [] then []
    else PortJournal(known, r, address, ports[..|ports| - 1]) + PortChanges(known, r, address, ports[|ports| - 1])
  }

  /** The services after a scan has looked at `ports`. */
  function ScannedServices(known: map<nat, ServiceRecord>, r: ScanReport, address: string,
                           ports: set<nat>): map<nat, ServiceRecord> {
    map p | p in known.Keys + (ports * OpenPorts(r, address))
            && (p in ports && p !in OpenPorts(r, address) ==> p !in ClosedPorts(r, address))
      :: if p in ports && p in OpenPorts(r, address) then ObservedService(r, address, p) else known[p]
  }

  predicate Smallest(s: set<nat>, m: nat) {
    m in s && forall x | x in s :: m <= x
  }

  lemma {:induction false} SmallestExists(s: set<nat>)
    requires s != {}
    ensures exists m :: Smallest(s, m)
  {
    var y :| y in s;
    var rest := s - {y};
    if rest == {} {
      assert forall x | x in s :: x in rest || x == y;
      assert Smallest(s, y);
    } else {
      SmallestExists(rest);
      var m :| Smallest(rest, m);
      SmallerOf(s, y, m);
    }
  }

  lemma SmallerOf(s: set<nat>, y: nat, m: nat)
    requires y in s && Smallest(s - {y}, m)
    ensures Smallest(s, if y < m then y else m)
  {
    assert forall x | x in s :: x == y || x in s - {y};
  }

  lemma SmallestFirst(s: set<nat>, m: nat, rest: seq<nat>)
    requires Smallest(s, m)
    requires forall p :: p in rest <==> p in s - {m}
    requires forall i, j | 0 <= i < j < |rest| :: rest[i] < rest[j]
    ensures forall p :: p in [m] + rest <==> p in s
    ensures forall i, j | 0 <= i < j < |[m] + rest| :: ([m] + rest)[i] < ([m] + rest)[j]
  {
    forall j | 0 <= j < |rest|
      ensures m < rest[j]
    {
      assert rest[j] in rest;
    }
    forall p
      ensures p in [m] + rest <==> p in s
    {
      assert p in rest <==> p in s - {m};
    }
  }

  function Ascending(s: set<nat>): (r: seq<nat>)
    ensures forall p :: p in r <==> p in s
    ensures forall i, j | 0 <= i < j < |r| :: r[i] < r[j]
    decreases |s|
  {
    if s == {} then []
    else
      SmallestExists(s);
      var m :| Smallest(s, m);
      var rest := Ascending(s - {m});
      SmallestFirst(s, m, rest);
      [m] + rest
  }

  function Elements(s: seq<nat>): (r: set<nat>)
    ensures forall p :: p in r <==> p in s
  {
    set p | p in s
  }

  // --------------------------------------------------------------- one scanned address

  function OsChange(address: string, before: Os, observed: Option<Os>): seq<Change> {
    if observed.Some? && OsText(before) != OsText(observed.value)
    then [OsChanged(address, OsText(before), OsText(observed.value))] else []
  }

  const UNKNOWN_OS := Os("", "", "", [], 0)

  function FreshAsset(r: ScanReport, address: string): Asset {
    Asset(address, r.createdAt, r.createdAt, r.createdAt, if r.targetIsHostname then [r.target] else [],
          UNKNOWN_OS, None, [], map[], [r.sessionId])
  }

  /** What a scan makes of an asset it already knows. */
  function RescannedAsset(a: Asset, r: ScanReport, address: string): Asset {
    a.(lastSeen := if OpenPorts(r, address) != {} then r.createdAt else a.lastSeen,
       lastCheckedAt := r.createdAt,
       hostnames := if r.targetIsHostname && r.target !in a.hostnames then a.hostnames + [r.target] else a.hostnames,
       os := if OsObserved(r.fingerprints, address).Some? then OsObserved(r.fingerprints, address).value else a.os,
       services := ScannedServices(a.services, r, address, RequestedPorts(r, address)),
       sessions := AppendUnique(a.sessions, r.sessionId))
  }

  function RescanJournal(a: Asset, r: ScanReport, address: string): seq<Change> {
    PortJournal(a.services, r, address, Ascending(RequestedPorts(r, address))) + HostChanges(a, r, address)
  }

  /** What a scan reports of the host itself. */
  function HostChanges(a: Asset, r: ScanReport, address: string): seq<Change> {
    (if r.targetIsHostname && r.target !in a.hostnames then [HostnameAdded(address, r.target)] else [])
    + OsChange(address, a.os, OsObserved(r.fingerprints, address))
  }

  predicate ScanSkips(assets: Assets, r: ScanReport, address: string) {
    address !in assets && OpenPorts(r, address) == {}
  }

  /** The asset a scan starts from: the known one, or a fresh one. */
  function ScanBase(assets: Assets, r: ScanReport, address: string): Asset {
    if address in assets then assets[address] else FreshAsset(r, address)
  }

  function ScanAddress(assets: Assets, r: ScanReport, address: string): Assets {
    if ScanSkips(assets, r, address) then assets
    else assets[address := RescannedAsset(ScanBase(assets, r, address), r, address)]
  }

  function ScanAddressJournal(assets: Assets, r: ScanReport, address: string): seq<Change> {
    if ScanSkips(assets, r, address) then []
    else
      (if address in assets then [] else [NewAsset(address)])
      + RescanJournal(ScanBase(assets, r, address), r, address)
  }

  function ScanAddresses(assets: Assets, r: ScanReport, addresses: seq<string>): Assets
    decreases |addresses|
  {
    if addresses == [] then assets
    else ScanAddress(ScanAddresses(assets, r, addresses[..|addresses| - 1]), r, addresses[|addresses| - 1])
  }

  function ScanJournal(assets: Assets, r: ScanReport, addresses: seq<string>): seq<Change>
    decreases |addresses|
  {
    if addresses == [] then []
    else
      var before := addresses[..|addresses| - 1];
      ScanJournal(assets, r, before)
          + ScanAddressJournal(ScanAddresses(assets, r, before), r, addresses[|addresses| - 1])
  }

  // ------------------------------------------------------------------ the scan, as loops

  lemma OnePortMore(known: map<nat, ServiceRecord>, r: ScanReport, address: string, ports: set<nat>, port: nat)
    requires port !in ports
    ensures ScannedServices(known, r, address, ports + {port})
      == PortScanned(ScannedServices(known, r, address, ports), r, address, port)
  {
  }

  lemma NothingScanned(known: map<nat, ServiceRecord>, r: ScanReport, address: string)
    ensures ScannedServices(known, r, address, {}) == known
  {
  }

  /** One requested port: open, closed, or neither. */
  method ScanPort(services: map<nat, ServiceRecord>, r: ScanReport, address: string, port: nat)
    returns (updated: map<nat, ServiceRecord>)
    ensures updated == PortScanned(services, r, address, port)
  {
    updated := services;
    if port in OpenPorts(r, address) {
      updated := services[port := ObservedService(r, address, port)];
    } else if port in ClosedPorts(r, address) {
      updated := services - {port};
    }
  }

  function PortScanned(services: map<nat, ServiceRecord>, r: ScanReport, address: string,
                       port: nat): map<nat, ServiceRecord> {
    if port in OpenPorts(r, address) then services[port := ObservedService(r, address, port)]
    else if port in ClosedPorts(r, address) then services - {port}
    else services
  }

  /** The inner loop: requested ports in ascending order. */
  method ScanPorts(known: map<nat, ServiceRecord>, r: ScanReport, address: string)
    returns (services: map<nat, ServiceRecord>, changes: seq<Change>)
    ensures services == ScannedServices(known, r, address, RequestedPorts(r, address))
    ensures changes == PortJournal(known, r, address, Ascending(RequestedPorts(r, address)))
  {
    services, changes := known, [];
    var ports := Ascending(RequestedPorts(r, address));
    NothingScanned(known, r, address);
    for i := 0 to |ports|
      invariant services == ScannedServices(known, r, address, Elements(ports[..i]))
      invariant changes == PortJournal(known, r, address, ports[..i])
    {
      ScannedOneMore(known, r, address, ports, i);
      changes := changes + PortChanges(known, r, address, ports[i]);
      services := ScanPort(services, r, address, ports[i]);
    }
    assert ports[..|ports|] == ports;
    assert Elements(ports) == RequestedPorts(r, address);
  }

  lemma ScannedOneMore(known: map<nat, ServiceRecord>, r: ScanReport, address: string, ports: seq<nat>, i: nat)
    requires i < |ports| && forall i, j | 0 <= i < j < |ports| :: ports[i] < ports[j]
    ensures ScannedServices(known, r, address, Elements(ports[..i + 1]))
      == PortScanned(ScannedServices(known, r, address, Elements(ports[..i])), r, address, ports[i])
    ensures PortJournal(known, r, address, ports[..i + 1])
      == PortJournal(known, r, address, ports[..i]) + PortChanges(known, r, address, ports[i])
  {
    NextPort(ports, i);
    OnePortMore(known, r, address, Elements(ports[..i]), ports[i]);
  }

  lemma NextPort(ports: seq<nat>, i: nat)
    requires i < |ports| && forall i, j | 0 <= i < j < |ports| :: ports[i] < ports[j]
    ensures ports[..i + 1][..i] == ports[..i]
    ensures Elements(ports[..i + 1]) == Elements(ports[..i]) + {ports[i]}
    ensures ports[i] !in Elements(ports[..i])
  {
    assert ports[..i + 1] == ports[..i] + [ports[i]];
  }

  lemma OneAddressMore(assets: Assets, r: ScanReport, addresses: seq<string>, i: nat)
    requires i < |addresses|
    ensures ScanAddresses(assets, r, addresses[..i + 1])
      == ScanAddress(ScanAddresses(assets, r, addresses[..i]), r, addresses[i])
    ensures ScanJournal(assets, r, addresses[..i + 1]) ==
      ScanJournal(assets, r, addresses[..i])
          + ScanAddressJournal(ScanAddresses(assets, r, addresses[..i]), r, addresses[i])
  {
    assert addresses[..i + 1][..i] == addresses[..i];
  }

  method ApplyScan(state: State, r: ScanReport) returns (after: State, changes: seq<Change>)
    ensures after == State(ScanAddresses(state.assets, r, r.addresses), r.createdAt)
    ensures changes == ScanJournal(state.assets, r, r.addresses)
  {
    var assets := state.assets;
    changes := [];
    var i := 0;
    while i < |r.addresses|
      invariant 0 <= i <= |r.addresses|
      invariant assets == ScanAddresses(state.assets, r, r.addresses[..i])
      invariant changes == ScanJournal(state.assets, r, r.addresses[..i])
    {
      OneAddressMore(state.assets, r, r.addresses, i);
      var found: seq<Change>;
      assets, found := ScanOneAddress(assets, r, r.addresses[i]);
      changes := changes + found;
      i := i + 1;
    }
    assert r.addresses[..i] == r.addresses;
    after := State(assets, r.createdAt);
  }

  method ScanOneAddress(before: Assets, r: ScanReport, address: string) returns (assets: Assets, changes: seq<Change>)
    ensures assets == ScanAddress(before, r, address)
    ensures changes == ScanAddressJournal(before, r, address)
  {
    assets, changes := before, [];
    if address !in assets && OpenPorts(r, address) == {} {
      return;
    }
    if address !in assets {
      assets := assets[address := FreshAsset(r, address)];
      changes := [NewAsset(address)];
      FreshScanned(before, r, address);
    }
    assets, changes := RescanInto(assets, r, address, changes);
  }

  lemma FreshScanned(before: Assets, r: ScanReport, address: string)
    requires address !in before && OpenPorts(r, address) != {}
    ensures var first := FreshAsset(r, address); var known := before[address := first];
      && known[address := RescannedAsset(first, r, address)] == ScanAddress(before, r, address)
      && [NewAsset(address)] + RescanJournal(first, r, address) == ScanAddressJournal(before, r, address)
  {
  }

  method RescanInto(known: Assets, r: ScanReport, address: string, announced: seq<Change>)
    returns (assets: Assets, changes: seq<Change>)
    requires address in known
    ensures assets == known[address := RescannedAsset(known[address], r, address)]
    ensures changes == announced + RescanJournal(known[address], r, address)
  {
    var updated, journal := Rescan(known[address], r, address);
    assets, changes := known[address := updated], announced + journal;
  }

  method Rescan(existing: Asset, r: ScanReport, address: string) returns (updated: Asset, changes: seq<Change>)
    ensures updated == RescannedAsset(existing, r, address)
    ensures changes == RescanJournal(existing, r, address)
  {
    var services, hostnames, os, host;
    services, changes := ScanPorts(existing.services, r, address);
    hostnames, os, host := ScanHost(existing, r, address);
    changes := changes + host;
    updated := existing.(
      lastSeen := if OpenPorts(r, address) != {} then r.createdAt else existing.lastSeen,
      lastCheckedAt := r.createdAt,
      hostnames := hostnames,
      os := os,
      services := services,
      sessions := AppendUnique(existing.sessions, r.sessionId));
  }

  /** The host's names and operating system. */
  method ScanHost(existing: Asset, r: ScanReport, address: string)
    returns (hostnames: seq<string>, os: Os, changes: seq<Change>)
    ensures hostnames ==
      if r.targetIsHostname && r.target !in existing.hostnames
      then existing.hostnames + [r.target] else existing.hostnames
    ensures os ==
      if OsObserved(r.fingerprints, address).Some? then OsObserved(r.fingerprints, address).value else existing.os
    ensures changes == HostChanges(existing, r, address)
  {
    hostnames, changes := existing.hostnames, [];
    if r.targetIsHostname && r.target !in hostnames {
      hostnames := hostnames + [r.target];
      changes := [HostnameAdded(address, r.target)];
    }
    os := existing.os;
    var observed := OsObserved(r.fingerprints, address);
    if observed.Some? {
      if OsText(os) != OsText(observed.value) {
        changes := changes + [OsChanged(address, OsText(os), OsText(observed.value))];
      }
      os := observed.value;
    }
  }

  // ------------------------------------------------------------------------- discovery

  function DiscoveredAsset(result: HostResult, r: DiscoveryReport): Asset {
    Asset(result.address, r.createdAt, r.createdAt, r.createdAt,
          if result.hostname != "" then [result.hostname] else [],
          UNKNOWN_OS, Some(true), [result.discoveryMethod], map[], [r.sessionId])
  }

  function RediscoveredAsset(a: Asset, result: HostResult, r: DiscoveryReport): Asset {
    a.(lastSeen := if result.responsive then r.createdAt else a.lastSeen,
       lastCheckedAt := r.createdAt,
       hostnames := AppendUnique(a.hostnames, result.hostname),
       lastResponsive := Some(result.responsive),
       methods := AppendUnique(a.methods, result.discoveryMethod),
       sessions := AppendUnique(a.sessions, r.sessionId))
  }

  function RediscoverJournal(a: Asset, result: HostResult): seq<Change> {
    (if result.hostname != "" && result.hostname !in a.hostnames
     then [HostnameAdded(result.address, result.hostname)] else [])
    + (if result.responsive && a.lastResponsive == Some(false) then [HostResponsive(result.address)] else [])
    + (if !result.responsive && a.lastResponsive == Some(true) then [HostUnresponsive(result.address)] else [])
  }

  function DiscoverHost(assets: Assets, r: DiscoveryReport, result: HostResult): Assets {
    if result.address in assets then assets[result.address := RediscoveredAsset(assets[result.address], result, r)]
    else if result.responsive then assets[result.address := DiscoveredAsset(result, r)]
    else assets
  }

  function DiscoverHostJournal(assets: Assets, result: HostResult): seq<Change> {
    if result.address in assets then RediscoverJournal(assets[result.address], result)
    else if result.responsive then [NewAsset(result.address)]
    else []
  }

  function DiscoverHosts(assets: Assets, r: DiscoveryReport, results: seq<HostResult>): Assets
    decreases |results|
  {
    if results == [] then assets
    else DiscoverHost(DiscoverHosts(assets, r, results[..|results| - 1]), r, results[|results| - 1])
  }

  function DiscoveryJournal(assets: Assets, r: DiscoveryReport, results: seq<HostResult>): seq<Change>
    decreases |results|
  {
    if results == [] then []
    else
      var before := results[..|results| - 1];
      DiscoveryJournal(assets, r, before)
          + DiscoverHostJournal(DiscoverHosts(assets, r, before), results[|results| - 1])
  }

  method ApplyDiscovery(state: State, r: DiscoveryReport) returns (after: State, changes: seq<Change>)
    ensures after == State(DiscoverHosts(state.assets, r, r.results), r.createdAt)
    ensures changes == DiscoveryJournal(state.assets, r, r.results)
  {
    var assets := state.assets;
    changes := [];
    for i := 0 to |r.results|
      invariant assets == DiscoverHosts(state.assets, r, r.results[..i])
      invariant changes == DiscoveryJournal(state.assets, r, r.results[..i])
    {
      assert r.results[..i + 1][..i] == r.results[..i];
      var found: seq<Change>;
      assets, found := DiscoverOneHost(assets, r, r.results[i]);
      changes := changes + found;
    }
    assert r.results[..|r.results|] == r.results;
    after := State(assets, r.createdAt);
  }

  method DiscoverOneHost(before: Assets, r: DiscoveryReport, result: HostResult)
    returns (assets: Assets, changes: seq<Change>)
    ensures assets == DiscoverHost(before, r, result)
    ensures changes == DiscoverHostJournal(before, result)
  {
    assets, changes := before, [];
    if result.address !in assets && !result.responsive {
      return;
    }
    if result.address !in assets {
      assets := assets[result.address := DiscoveredAsset(result, r)];
      changes := [NewAsset(result.address)];
      return;
    }
    var existing := assets[result.address];
    var hostnames := existing.hostnames;
    if result.hostname != "" && result.hostname !in hostnames {
      hostnames := hostnames + [result.hostname];
      changes := changes + [HostnameAdded(result.address, result.hostname)];
    }
    var updated := existing.(
      lastCheckedAt := r.createdAt,
      hostnames := hostnames,
      methods := AppendUnique(existing.methods, result.discoveryMethod),
      sessions := AppendUnique(existing.sessions, r.sessionId));
    if result.responsive {
      if existing.lastResponsive == Some(false) {
        changes := changes + [HostResponsive(result.address)];
      }
      assets := assets[result.address := updated.(lastSeen := r.createdAt, lastResponsive := Some(true))];
    } else {
      if existing.lastResponsive == Some(true) {
        changes := changes + [HostUnresponsive(result.address)];
      }
      assets := assets[result.address := updated.(lastResponsive := Some(false))];
    }
  }
}
